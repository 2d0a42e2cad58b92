/** The session side of `MainController`: `handleLoadRequest` turns the stored
    sessions into the labels of the history dialog, and its load and delete
    callbacks act on the row the user picked in that dialog.

    Reading and deleting sessions on disk is not modelled: the stored sessions
    are an input. */
module SessionController {
  import opened Options
  import opened Decimal

  /** One stored session: the original text and its rewrite. */
  datatype Session = Session(original: string, rewritten: string)

  /** Labels show at most this many chars of the original text. */
  const SnippetLength: nat := 30

  /** Appended to a snippet that was cut short. */
  const Ellipsis: string := "..."

  function Min(a: nat, b: nat): nat {
    if a <= b then a else b
  }

  /** The part of the original text a label shows: the text itself when it
      has at most 30 chars, otherwise its first 30 chars and an ellipsis. */
  function Snippet(original: string): (r: string)
    ensures Min(|original|, SnippetLength) <= |r| <= SnippetLength + |Ellipsis|
    ensures r[..Min(|original|, SnippetLength)] == original[..Min(|original|, SnippetLength)]
    ensures |original| <= SnippetLength ==> r == original
    ensures |original| > SnippetLength ==> |r| == SnippetLength + |Ellipsis| && r[SnippetLength..] == Ellipsis
  {
    if |original| > SnippetLength then original[..SnippetLength] + Ellipsis else original
  }

  /** Cutting a snippet again changes nothing: a snippet is its own snippet. */
  lemma SnippetIdempotent(original: string)
    ensures Snippet(Snippet(original)) == Snippet(original)
  {
  }

  const LabelHead: string := "Session "
  const LabelSeparator: string := ": "

  /** The label of the session at zero-based position `index`: sessions are
      numbered from one. */
  function Label(index: nat, original: string): string {
    LabelHead + NatToString(index + 1) + LabelSeparator + Snippet(original)
  }

  /** The number of digits at the front of `s`. */
  function LeadingDigits(s: string): (n: nat)
    ensures n <= |s|
    ensures forall i :: 0 <= i < n ==> IsDigit(s[i])
    ensures n < |s| ==> !IsDigit(s[n])
  {
    if |s| == 0 || !IsDigit(s[0]) then 0
    else 1 + LeadingDigits(s[1..])
  }

  /** The session number a label starts with, when it has the shape
      "Session <digits>:". */
  function LabelNumber(caption: string): (r: Option<nat>)
    ensures r.Some? ==> |caption| > |LabelHead| && caption[..|LabelHead|] == LabelHead
  {
    if |caption| < |LabelHead| || caption[..|LabelHead|] != LabelHead then None
    else
      var rest := caption[|LabelHead|..];
      var k := LeadingDigits(rest);
      if k == 0 || k == |rest| || rest[k] != ':' then None
      else Some(ParseDecimal(rest[..k]))
  }

  /** A numeral followed by a non-digit: its digits are exactly the leading
      digits. */
  lemma {:induction false} LeadingDigitsOfNumeral(digits: string, tail: string)
    requires AllDigits(digits)
    requires |tail| > 0 && !IsDigit(tail[0])
    ensures LeadingDigits(digits + tail) == |digits|
    decreases |digits|
  {
    if |digits| > 0 {
      assert (digits + tail)[1..] == digits[1..] + tail;
      LeadingDigitsOfNumeral(digits[1..], tail);
    }
  }

  /** Every label carries its session's one-based number. */
  lemma {:induction false} LabelNumberOfLabel(index: nat, original: string)
    ensures LabelNumber(Label(index, original)) == Some(index + 1)
  {
    var digits := NatToString(index + 1);
    var tail := LabelSeparator + Snippet(original);
    var caption := Label(index, original);
    assert caption == LabelHead + (digits + tail);
    assert caption[..|LabelHead|] == LabelHead;
    var rest := caption[|LabelHead|..];
    assert rest == digits + tail;
    LeadingDigitsOfNumeral(digits, tail);
    assert rest[..|digits|] == digits;
    ParseNatToString(index + 1);
  }

  /** `labels` are the history dialog's rows for `sessions`: one per session,
      in order. */
  predicate LabelsFor(labels: seq<string>, sessions: seq<Session>) {
    |labels| == |sessions| &&
    forall i :: 0 <= i < |sessions| ==> labels[i] == Label(i, sessions[i].original)
  }

  /** The loop of `handleLoadRequest` that fills the options array. */
  method BuildLabels(sessions: seq<Session>) returns (labels: seq<string>)
    ensures LabelsFor(labels, sessions)
  {
    labels := [];
    var i := 0;
    while i < |sessions|
      invariant 0 <= i <= |sessions|
      invariant LabelsFor(labels, sessions[..i])
    {
      labels := labels + [Label(i, sessions[i].original)];
      i := i + 1;
    }
    assert sessions[..i] == sessions;
  }

  /** `handleLoadRequest`: with no stored sessions it returns without opening
      the dialog; otherwise the dialog lists one label per session. */
  method HandleLoadRequest(sessions: seq<Session>) returns (options: Option<seq<string>>)
    ensures options.None? <==> |sessions| == 0
    ensures options.Some? ==> LabelsFor(options.value, sessions)
  {
    if |sessions| == 0 {
      return None;
    }
    var labels := BuildLabels(sessions);
    return Some(labels);
  }

  /** No two rows of the dialog read the same, even for sessions with the same
      text, because each carries its own number. */
  lemma LabelsDistinct(labels: seq<string>, sessions: seq<Session>)
    requires LabelsFor(labels, sessions)
    ensures forall i, j :: 0 <= i < j < |labels| ==> labels[i] != labels[j]
  {
    forall i, j | 0 <= i < j < |labels|
      ensures labels[i] != labels[j]
    {
      LabelNumberOfLabel(i, sessions[i].original);
      LabelNumberOfLabel(j, sessions[j].original);
    }
  }

  /** The history dialog: the sessions as read when it opened, and for each
      row still listed, the position of its session in that list. */
  datatype HistoryDialog = HistoryDialog(sessions: seq<Session>, rows: seq<nat>) {

    predicate Valid() {
      forall i :: 0 <= i < |rows| ==> rows[i] < |sessions|
    }

    /** The label shown on row `i`. Deleting a row does not renumber the
        others. */
    function RowLabel(i: nat): string
      requires Valid() && i < |rows|
    {
      Label(rows[i], sessions[rows[i]].original)
    }
  }

  /** The dialog as `showSessionListWindow` opens it: one row per session. */
  function OpenHistory(sessions: seq<Session>): (d: HistoryDialog)
    ensures d.Valid() && d.sessions == sessions && |d.rows| == |sessions|
    ensures forall i :: 0 <= i < |sessions| ==> d.RowLabel(i) == Label(i, sessions[i].original)
  {
    HistoryDialog(sessions, seq(|sessions|, i => i))
  }

  /** "Delete Selected" on row `index`: the row leaves the list and the
      others keep their labels. */
  function DeleteSelected(d: HistoryDialog, index: nat): (e: HistoryDialog)
    requires d.Valid() && index < |d.rows|
    ensures e.Valid() && e.sessions == d.sessions && |e.rows| == |d.rows| - 1
    ensures forall i :: 0 <= i < index ==> e.RowLabel(i) == d.RowLabel(i)
    ensures forall i :: index <= i < |e.rows| ==> e.RowLabel(i) == d.RowLabel(i + 1)
  {
    HistoryDialog(d.sessions, d.rows[..index] + d.rows[index + 1..])
  }

  /** "Load Selected" on row `index` as the controller is written: it reads
      position `index` of the list read when the dialog opened; `List.get`
      fails past its end. The delete callback does not shorten that list,
      assuming `FileService.loadSession` returns a list that
      `deleteSession` does not change (`FileService` is not part of this
      model). */
  function LoadSelectedAsWritten(d: HistoryDialog, index: nat): (r: Option<Session>)
    ensures r.Some? <==> index < |d.sessions|
    ensures r.Some? ==> r.value == d.sessions[index]
  {
    if index < |d.sessions| then Some(d.sessions[index]) else None
  }

  /** "Load Selected" on row `index` as intended: it loads the session whose
      number the row's label shows. */
  function LoadSelected(d: HistoryDialog, index: nat): (r: Session)
    requires d.Valid() && index < |d.rows|
    ensures LabelNumber(d.RowLabel(index)).Some?
    ensures 1 <= LabelNumber(d.RowLabel(index)).value <= |d.sessions|
    ensures r == d.sessions[LabelNumber(d.RowLabel(index)).value - 1]
  {
    LabelNumberOfLabel(d.rows[index], d.sessions[d.rows[index]].original);
    d.sessions[d.rows[index]]
  }

  /** Until a row is deleted, the controller as written loads the right
      session. */
  lemma LoadAsWrittenBeforeDelete(sessions: seq<Session>, index: nat)
    requires index < |sessions|
    ensures LoadSelectedAsWritten(OpenHistory(sessions), index) == Some(LoadSelected(OpenHistory(sessions), index))
  {
  }

  /** After the first row is deleted, loading the row now on top loads the
      deleted session instead of the one the row's label names. */
  lemma {:induction false} LoadAsWrittenAfterDelete()
    ensures var d := DeleteSelected(OpenHistory([Session("first", "1"), Session("second", "2")]), 0);
      && LabelNumber(d.RowLabel(0)) == Some(2)
      && LoadSelectedAsWritten(d, 0) == Some(Session("first", "1"))
      && LoadSelected(d, 0) == Session("second", "2")
  {
    var s := [Session("first", "1"), Session("second", "2")];
    var d := DeleteSelected(OpenHistory(s), 0);
    assert d.rows == [1];
    LabelNumberOfLabel(1, "second");
  }
}
