/**
 * The per-section list handlers of the quote editor (App.tsx, `QuoteSection` and the
 * `QuoteItemInput` callbacks). Each handler builds a new list from the current one:
 * an edit is a `map` over the list, an add is an append, a remove is a `filter`.
 *
 * `parseFloat` is a parameter `parse`, with `None` standing for NaN; `String(number)`
 * is a parameter `show`.
 */
module Sections {
  import opened Wrappers
  import opened QuoteTypes

  /** Some item of the list carries `id`. */
  predicate HasId(items: seq<QuoteItem>, id: string)
  {
    exists i :: 0 <= i < |items| && items[i].id == id
  }

  /** No two items of the list share an id. The type does not promise this. */
  predicate UniqueIds(items: seq<QuoteItem>)
  {
    forall i, j :: 0 <= i < j < |items| ==> items[i].id != items[j].id
  }

  /**
   * handleItemChange: every item whose id is `id` gets the new text and the parsed
   * value (absent when the parse gives NaN); every other item is kept as it is.
   */
  function ChangeItem(items: seq<QuoteItem>, id: string, text: string, raw: string,
                      parse: string -> Option<real>): (r: seq<QuoteItem>)
    ensures |r| == |items|
    ensures forall i :: 0 <= i < |items| && items[i].id != id ==> r[i] == items[i]
    ensures forall i :: 0 <= i < |items| && items[i].id == id ==> r[i] == QuoteItem(id, text, parse(raw))
  {
    if items == [] then []
    else
      var head := if items[0].id == id then items[0].(text := text, value := parse(raw)) else items[0];
      [head] + ChangeItem(items[1..], id, text, raw, parse)
  }

  /** The item handleAddItem appends: the given id, empty text and no value. */
  function Blank(id: string): QuoteItem
  {
    QuoteItem(id, "", None)
  }

  /**
   * handleAddItem: exactly one blank item is appended at the end; the id, which the
   * editor takes from the clock, is a parameter.
   */
  function AddItem(items: seq<QuoteItem>, newId: string): (r: seq<QuoteItem>)
    ensures |r| == |items| + 1
    ensures r[..|items|] == items
    ensures r[|items|].id == newId && r[|items|].text == "" && r[|items|].value == None
  {
    items + [Blank(newId)]
  }

  /** handleRemoveItem: exactly the items whose id differs from `id` are kept. */
  function RemoveItem(items: seq<QuoteItem>, id: string): (r: seq<QuoteItem>)
    ensures |r| <= |items|
    ensures forall x :: x in r <==> x in items && x.id != id
  {
    if items == [] then []
    else (if items[0].id != id then [items[0]] else []) + RemoveItem(items[1..], id)
  }

  /** `String(item.value || '')`: the value as the text input re-sends it; 0 and absent both give "". */
  function ValueText(v: Option<real>, show: real -> string): string
  {
    match v
    case None => ""
    case Some(x) => if x == 0.0 then "" else show(x)
  }

  /** The description input's change callback: new text, the current value re-sent as a string. */
  function OnTextInput(items: seq<QuoteItem>, item: QuoteItem, newText: string,
                       parse: string -> Option<real>, show: real -> string): seq<QuoteItem>
  {
    ChangeItem(items, item.id, newText, ValueText(item.value, show), parse)
  }

  /** The value input's change callback: the current text, the raw string typed. */
  function OnValueInput(items: seq<QuoteItem>, item: QuoteItem, raw: string,
                        parse: string -> Option<real>): seq<QuoteItem>
  {
    ChangeItem(items, item.id, item.text, raw, parse)
  }

  /** A present value of 0 is dropped; any other value is kept. */
  function DropZero(v: Option<real>): Option<real>
  {
    if v == Some(0.0) then None else v
  }

  // ---------------------------------------------------------------------------
  // Properties of the handlers

  /** Editing keeps the id of every position, so the list's ids are unchanged. */
  lemma ChangeKeepsIds(items: seq<QuoteItem>, id: string, text: string, raw: string,
                       parse: string -> Option<real>)
    ensures var r := ChangeItem(items, id, text, raw, parse);
      |r| == |items| && forall i :: 0 <= i < |items| ==> r[i].id == items[i].id
  {
  }

  /** Editing an id that no item carries is a no-op. */
  lemma ChangeUnknownId(items: seq<QuoteItem>, id: string, text: string, raw: string,
                        parse: string -> Option<real>)
    requires !HasId(items, id)
    ensures ChangeItem(items, id, text, raw, parse) == items
  {
    var r := ChangeItem(items, id, text, raw, parse);
    assert forall i :: 0 <= i < |items| ==> r[i] == items[i];
  }

  /** Editing keeps the ids unique when they were. */
  lemma ChangeKeepsUniqueIds(items: seq<QuoteItem>, id: string, text: string, raw: string,
                             parse: string -> Option<real>)
    requires UniqueIds(items)
    ensures UniqueIds(ChangeItem(items, id, text, raw, parse))
  {
    ChangeKeepsIds(items, id, text, raw, parse);
  }

  /** Removing distributes over concatenation: the kept items stay in their order. */
  lemma {:induction false} RemoveAppend(a: seq<QuoteItem>, b: seq<QuoteItem>, id: string)
    ensures RemoveItem(a + b, id) == RemoveItem(a, id) + RemoveItem(b, id)
  {
    if a == [] {
      assert a + b == b;
    } else {
      assert (a + b)[1..] == a[1..] + b;
      RemoveAppend(a[1..], b, id);
    }
  }

  /** Removing an id that no item carries is a no-op. */
  lemma {:induction false} RemoveUnknownId(items: seq<QuoteItem>, id: string)
    requires !HasId(items, id)
    ensures RemoveItem(items, id) == items
  {
    if items != [] {
      assert !HasId(items[1..], id) by {
        forall i | 0 <= i < |items[1..]| ensures items[1..][i].id != id {
          assert items[1..][i] == items[i + 1];
        }
      }
      RemoveUnknownId(items[1..], id);
      assert items == [items[0]] + items[1..];
    }
  }

  /** Removing the same id twice is the same as removing it once. */
  lemma RemoveIdempotent(items: seq<QuoteItem>, id: string)
    ensures RemoveItem(RemoveItem(items, id), id) == RemoveItem(items, id)
  {
    var r := RemoveItem(items, id);
    assert !HasId(r, id) by {
      forall i | 0 <= i < |r| ensures r[i].id != id {
        assert r[i] in r;
      }
    }
    RemoveUnknownId(r, id);
  }

  /** Removing keeps the ids unique when they were: what is kept is a subsequence. */
  lemma {:induction false} RemoveKeepsUniqueIds(items: seq<QuoteItem>, id: string)
    requires UniqueIds(items)
    ensures UniqueIds(RemoveItem(items, id))
  {
    if items != [] {
      var tail := RemoveItem(items[1..], id);
      assert UniqueIds(items[1..]) by {
        forall i, j | 0 <= i < j < |items[1..]| ensures items[1..][i].id != items[1..][j].id {
          assert items[1..][i] == items[i + 1] && items[1..][j] == items[j + 1];
        }
      }
      RemoveKeepsUniqueIds(items[1..], id);
      if items[0].id != id {
        forall j | 0 <= j < |tail| ensures tail[j].id != items[0].id {
          assert tail[j] in items[1..];
          var k :| 0 <= k < |items[1..]| && items[1..][k] == tail[j];
          assert items[k + 1] == tail[j];
        }
        assert RemoveItem(items, id) == [items[0]] + tail;
      }
    }
  }

  /** Adding keeps every earlier item and keeps the ids unique when the new id is fresh. */
  lemma AddKeepsUniqueIds(items: seq<QuoteItem>, newId: string)
    requires UniqueIds(items) && !HasId(items, newId)
    ensures UniqueIds(AddItem(items, newId))
  {
    var r := AddItem(items, newId);
    forall i, j | 0 <= i < j < |r| ensures r[i].id != r[j].id {
      assert r[i] == items[i];
      if j == |items| {
        assert items[i].id != newId;
      } else {
        assert r[j] == items[j];
      }
    }
  }

  /** Adding an item whose id was not yet in the list and then removing that id restores the list. */
  lemma AddThenRemove(items: seq<QuoteItem>, newId: string)
    requires !HasId(items, newId)
    ensures RemoveItem(AddItem(items, newId), newId) == items
  {
    RemoveAppend(items, [Blank(newId)], newId);
    RemoveUnknownId(items, newId);
    assert RemoveItem([Blank(newId)], newId) == [];
  }

  /**
   * An edit from the description input: every item sharing the edited item's id gets
   * the new text and the edited item's value, except that a value of 0 becomes absent,
   * because `String(0 || '')` is "" and parseFloat("") is NaN. The two requirements are
   * the facts about parseFloat and String this relies on.
   */
  lemma TextEditDropsZero(items: seq<QuoteItem>, item: QuoteItem, newText: string,
                          parse: string -> Option<real>, show: real -> string, i: int)
    requires parse("") == None
    requires item.value.Some? && item.value.value != 0.0 ==> parse(show(item.value.value)) == item.value
    requires 0 <= i < |items| && items[i].id == item.id
    ensures OnTextInput(items, item, newText, parse, show)[i] == QuoteItem(item.id, newText, DropZero(item.value))
  {
  }

  /** An edit from the value input keeps the text and stores the parsed value. */
  lemma ValueEditKeepsText(items: seq<QuoteItem>, item: QuoteItem, raw: string,
                           parse: string -> Option<real>, i: int)
    requires 0 <= i < |items| && items[i] == item
    ensures OnValueInput(items, item, raw, parse)[i] == item.(value := parse(raw))
  {
  }
}
