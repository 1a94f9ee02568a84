/** Client-side table search (public/js/main.js): typing in a search field
    filters the rows of the nearest table by their lower-cased text, and Escape
    clears every text field and re-runs its filter. The DOM is plain data: a
    table body is an array of rows, and the table a field filters is found once
    (None when `closest(...)`/`querySelector('table')` finds nothing). */
module Search {
  import opened Wrappers
  import opened Strings

  /** A `tbody tr`: its text content and whether it is displayed
      (`style.display` is `''` rather than `'none'`). */
  datatype Row = Row(text: string, visible: bool)

  /** The row's lower-cased text contains the term. */
  predicate Matches(row: Row, term: string)
  {
    Includes(Lower(row.text), term)
  }

  function Texts(rows: seq<Row>): (r: seq<string>)
    ensures |r| == |rows|
    ensures forall i :: 0 <= i < |rows| ==> r[i] == rows[i].text
  {
    if rows == [] then [] else [rows[0].text] + Texts(rows[1..])
  }

  /** The rows after `performSearch(term)`: same texts in the same order, and a
      row is shown exactly when it matches. */
  function Filtered(rows: seq<Row>, term: string): (r: seq<Row>)
    ensures Texts(r) == Texts(rows)
    ensures forall i :: 0 <= i < |r| ==> (r[i].visible <==> Matches(rows[i], term))
  {
    if rows == [] then [] else [Row(rows[0].text, Matches(rows[0], term))] + Filtered(rows[1..], term)
  }

  /** Filtering twice with the same term is filtering once: visibility depends
      only on the text, which filtering does not touch. */
  lemma FilteredIdempotent(rows: seq<Row>, term: string)
    ensures Filtered(Filtered(rows, term), term) == Filtered(rows, term)
  {
  }

  predicate AllVisible(rows: seq<Row>)
  {
    forall i :: 0 <= i < |rows| ==> rows[i].visible
  }

  /** The empty term shows every row, whatever was hidden before. */
  lemma EmptyTermShowsAll(rows: seq<Row>)
    ensures AllVisible(Filtered(rows, ""))
  {
  }

  /** A term found in row k's text and in no other row's leaves only row k
      shown; clearing the term then shows all rows again. */
  lemma SingleMatch(rows: seq<Row>, term: string, k: nat)
    requires k < |rows|
    requires Matches(rows[k], term)
    requires forall i :: 0 <= i < |rows| && i != k ==> !Matches(rows[i], term)
    ensures forall i :: 0 <= i < |rows| ==> (Filtered(rows, term)[i].visible <==> i == k)
    ensures AllVisible(Filtered(Filtered(rows, term), ""))
    ensures Texts(Filtered(Filtered(rows, term), "")) == Texts(rows)
  {
    EmptyTermShowsAll(Filtered(rows, term));
  }

  /** The arrays a table reference denotes: none when no table was found. */
  function Frame(table: Option<array<Row>>): set<array<Row>>
  {
    if table.Some? then {table.value} else {}
  }

  /** `performSearch(term, input)`: each row's display flag is set from its
      text; when no table is found nothing changes. */
  method PerformSearch(term: string, table: Option<array<Row>>)
    modifies Frame(table)
    ensures table.Some? ==> table.value[..] == Filtered(old(table.value[..]), term)
  {
    if table.None? {
      return;
    }
    var rows := table.value;
    for i := 0 to rows.Length
      invariant forall k :: 0 <= k < i ==> rows[k] == Row(old(rows[k]).text, Matches(old(rows[k]), term))
      invariant forall k :: i <= k < rows.Length ==> rows[k] == old(rows[k])
    {
      rows[i] := Row(rows[i].text, Matches(rows[i], term));
    }
    ghost var before := old(rows[..]);
    forall k | 0 <= k < rows.Length ensures rows[..][k] == Filtered(before, term)[k] {
      assert Texts(Filtered(before, term))[k] == Texts(before)[k];
    }
  }

  /** `[placeholder*="search" i]`: the placeholder contains "search", ASCII
      case ignored. */
  predicate IsSearchPlaceholder(placeholder: string)
  {
    Includes(Lower(placeholder), "search")
  }

  /** An `<input type="text">`: its value, its placeholder, and the table its
      search (if any) filters. */
  class TextInput {
    var value: string
    const placeholder: string
    const table: Option<array<Row>>
    /** `initializeSearch` gave this field an input listener when the page
        loaded. */
    const listening: bool

    constructor (value: string, placeholder: string, table: Option<array<Row>>)
      ensures this.value == value && this.placeholder == placeholder && this.table == table
      ensures listening <==> IsSearchPlaceholder(placeholder)
    {
      this.value := value;
      this.placeholder := placeholder;
      this.table := table;
      this.listening := IsSearchPlaceholder(placeholder);
    }

  }

  /** The `input` event: a search field filters its table by its lower-cased
      value; any other field has no listener. */
  method OnInput(input: TextInput)
    modifies Frame(input.table)
    ensures input.listening && input.table.Some? ==>
      input.table.value[..] == Filtered(old(input.table.value[..]), Lower(input.value))
    ensures !input.listening && input.table.Some? ==>
      input.table.value[..] == old(input.table.value[..])
  {
    if input.listening {
      PerformSearch(Lower(input.value), input.table);
    }
  }

  /** The tables reachable from the fields. */
  function Tables(inputs: seq<TextInput>): set<array<Row>>
  {
    set i | i in inputs && i.table.Some? :: i.table.value
  }

  /** One of the first `n` fields is a search field filtering `t`. */
  predicate SearchedBefore(inputs: seq<TextInput>, n: nat, t: array<Row>)
  {
    exists i :: 0 <= i < n && i < |inputs| && inputs[i].listening && inputs[i].table == Some(t)
  }

  /** The Escape branch of the keydown listener: every text field is emptied
      and gets an `input` event, so every table a search field filters shows
      all its rows, with texts unchanged; other tables are untouched. */
  method ClearSearches(inputs: seq<TextInput>)
    modifies inputs, Tables(inputs)
    ensures forall i :: 0 <= i < |inputs| ==> inputs[i].value == ""
    ensures forall t :: SearchedBefore(inputs, |inputs|, t) ==> t[..] == Filtered(old(t[..]), "")
    ensures forall t :: t in Tables(inputs) && !SearchedBefore(inputs, |inputs|, t) ==> t[..] == old(t[..])
  {
    ghost var orig := Snapshot(inputs);
    for n := 0 to |inputs|
      invariant forall i :: 0 <= i < n ==> inputs[i].value == ""
      invariant Cleared(inputs, n, orig, Snapshot(inputs))
    {
      ClearNext(inputs, n, orig);
    }
    forall t | SearchedBefore(inputs, |inputs|, t)
      ensures t[..] == Filtered(old(t[..]), "")
    {
      var i :| 0 <= i < |inputs| && inputs[i].listening && inputs[i].table == Some(t);
      assert t in Tables(inputs);
    }
  }

  /** One round of the Escape loop over the fields: field `n` joins the
      cleared ones. */
  method ClearNext(inputs: seq<TextInput>, n: nat, ghost orig: map<array<Row>, seq<Row>>)
    requires n < |inputs|
    requires forall i :: 0 <= i < n ==> inputs[i].value == ""
    requires Cleared(inputs, n, orig, Snapshot(inputs))
    modifies inputs[n], Frame(inputs[n].table)
    ensures forall i :: 0 <= i < n + 1 ==> inputs[i].value == ""
    ensures Cleared(inputs, n + 1, orig, Snapshot(inputs))
  {
    ghost var before := Snapshot(inputs);
    ClearOne(inputs[n]);
    forall i | 0 <= i < n + 1
      ensures inputs[i].value == ""
    {
      if inputs[i] != inputs[n] {
        assert inputs[i].value == old(inputs[i].value);
      }
    }
    forall t | t in Tables(inputs)
      ensures Snapshot(inputs)[t] == Escaped(before, inputs[n])[t]
    {
      if inputs[n].table != Some(t) {
        assert t[..] == old(t[..]);
      }
    }
    assert Snapshot(inputs) == Escaped(before, inputs[n]);
    ClearStep(inputs, n, orig, before);
  }

  /** The rows of every table a field filters, as they are now. */
  function Snapshot(inputs: seq<TextInput>): (m: map<array<Row>, seq<Row>>)
    reads Tables(inputs)
    ensures m.Keys == Tables(inputs)
    ensures forall t :: t in m ==> m[t] == t[..]
  {
    map t | t in Tables(inputs) :: t[..]
  }

  /** The tables in `cur` after the first `n` fields were cleared, given the
      tables in `orig` before Escape: each table filtered by one of them is the
      empty-term filter of its original rows; every other table is as it was. */
  ghost predicate Cleared(inputs: seq<TextInput>, n: nat, orig: map<array<Row>, seq<Row>>, cur: map<array<Row>, seq<Row>>)
  {
    && Tables(inputs) <= orig.Keys
    && Tables(inputs) <= cur.Keys
    && forall t :: t in Tables(inputs) ==>
         cur[t] == (if SearchedBefore(inputs, n, t) then Filtered(orig[t], "") else orig[t])
  }

  /** The tables after one field's `input` event with an empty value: its
      table, when it listens, is filtered by "". */
  function Escaped(cur: map<array<Row>, seq<Row>>, input: TextInput): map<array<Row>, seq<Row>>
  {
    if input.listening && input.table.Some? && input.table.value in cur then
      cur[input.table.value := Filtered(cur[input.table.value], "")]
    else
      cur
  }

  /** One round of the Escape loop: the field is emptied and dispatches
      `input`, which filters its table by "" when it listens. */
  method ClearOne(input: TextInput)
    modifies input`value, Frame(input.table)
    ensures input.value == ""
    ensures input.listening && input.table.Some? ==>
      input.table.value[..] == Filtered(old(input.table.value[..]), "")
    ensures !input.listening && input.table.Some? ==>
      input.table.value[..] == old(input.table.value[..])
  {
    input.value := "";
    assert Lower(input.value) == "";
    OnInput(input);
  }

  /** Clearing field `n` extends `Cleared` from `n` to `n + 1` fields. */
  lemma ClearStep(inputs: seq<TextInput>, n: nat, orig: map<array<Row>, seq<Row>>, cur: map<array<Row>, seq<Row>>)
    requires n < |inputs|
    requires Cleared(inputs, n, orig, cur)
    ensures Cleared(inputs, n + 1, orig, Escaped(cur, inputs[n]))
  {
    forall t | t in Tables(inputs)
      ensures Escaped(cur, inputs[n])[t] ==
        (if SearchedBefore(inputs, n + 1, t) then Filtered(orig[t], "") else orig[t])
    {
      SearchedStep(inputs, n, t);
      if inputs[n].listening && inputs[n].table == Some(t) && SearchedBefore(inputs, n, t) {
        FilteredIdempotent(orig[t], "");
      }
    }
  }

  /** Field `n` adds exactly its own table to those searched by the first `n`. */
  lemma SearchedStep(inputs: seq<TextInput>, n: nat, t: array<Row>)
    requires n < |inputs|
    ensures SearchedBefore(inputs, n + 1, t) <==>
      SearchedBefore(inputs, n, t) || (inputs[n].listening && inputs[n].table == Some(t))
  {
    if SearchedBefore(inputs, n + 1, t) && !(inputs[n].listening && inputs[n].table == Some(t)) {
      var i :| 0 <= i < n + 1 && i < |inputs| && inputs[i].listening && inputs[i].table == Some(t);
      assert i < n;
    }
  }
}
