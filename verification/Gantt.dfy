/** The Gantt log: entries joined by '|', the tokenizer that takes it apart again, and the blocks of
    the chart as a run-length code of the entries. */
module Gantt {
  import opened Basics
  import opened Processes

  const SEPARATOR: char := '|'

  // ---------- the log ----------

  /** The log after one more entry; the first one is written without a separator. */
  function Appended(log: string, entry: string): string {
    if log == "" then entry else log + [SEPARATOR] + entry
  }

  function Joined(entries: seq<string>): string {
    if entries == [] then "" else Appended(Joined(entries[..|entries| - 1]), entries[|entries| - 1])
  }

  lemma {:induction false} JoinedStep(entries: seq<string>)
    requires entries != [] && entries[0] != ""
    ensures var n := |entries| - 1;
      Joined(entries) == if n == 0 then entries[0] else Joined(entries[..n]) + "|" + entries[n]
    ensures Joined(entries) != ""
  {
    var n := |entries| - 1;
    if n > 0 {
      JoinedStep(entries[..n]);
    } else {
      assert entries[..0] == [];
    }
  }

  /** Where the k-th entry begins: behind all entries before it and one separator for each. */
  function Offset(entries: seq<string>, k: nat): int
    requires k <= |entries|
  {
    Sum(Lengths(entries[..k])) + k
  }

  lemma {:induction false} OffsetStep(entries: seq<string>, k: nat)
    requires k < |entries|
    ensures Offset(entries, 0) == 0
    ensures Offset(entries, k + 1) == Offset(entries, k) + |entries[k]| + 1
    ensures Offset(entries[..k], k) == Offset(entries, k)
  {
    var v := Lengths(entries[..k + 1]);
    assert v[..k] == Lengths(entries[..k]);
    assert entries[..k][..k] == entries[..k];
  }

  lemma {:induction false} OffsetOfPrefix(entries: seq<string>, n: nat, k: nat)
    requires k <= n <= |entries|
    ensures Offset(entries[..n], k) == Offset(entries, k)
  {
    assert entries[..n][..k] == entries[..k];
  }

  /** The text is as long as its entries and one separator between any two. */
  lemma {:induction false} JoinedLength(entries: seq<string>)
    requires entries != [] && entries[0] != ""
    ensures |Joined(entries)| == Offset(entries, |entries|) - 1
  {
    var n := |entries| - 1;
    JoinedStep(entries);
    OffsetStep(entries, n);
    if n > 0 {
      JoinedLength(entries[..n]);
      OffsetOfPrefix(entries, n, n);
    } else {
      assert Offset(entries, 0) == 0;
    }
    hide Joined, Offset;
  }

  /** The k-th entry stands where it belongs, with a separator in front of it unless it is the first. */
  ghost predicate ShowsAt(text: string, entries: seq<string>, k: nat)
    requires k < |entries|
  {
    var from := Offset(entries, k);
    && 0 <= from <= from + |entries[k]| <= |text|
    && text[from..from + |entries[k]|] == entries[k]
    && (0 < k ==> 0 < from && text[from - 1] == '|')
  }

  lemma {:induction false} ShowsFurther(text: string, rest: string, entries: seq<string>, n: nat, k: nat)
    requires k < n <= |entries| && ShowsAt(text, entries[..n], k)
    ensures ShowsAt(text + rest, entries, k)
  {
    OffsetOfPrefix(entries, n, k);
    var from := Offset(entries, k);
    assert entries[..n][k] == entries[k];
    hide Offset;
    assert (text + rest)[from..from + |entries[k]|] == text[from..from + |entries[k]|];
  }

  lemma {:induction false} LastShows(text: string, entries: seq<string>, n: nat)
    requires n < |entries| && |text| + 1 == Offset(entries, n)
    ensures ShowsAt(text + "|" + entries[n], entries, n)
  {
    var all := text + "|" + entries[n];
    hide Offset;
    assert all[|text|] == '|' && |all| == |text| + 1 + |entries[n]|;
    assert all[|text| + 1..|all|] == entries[n];
  }

  lemma {:induction false} FirstShows(entries: seq<string>)
    requires entries != []
    ensures ShowsAt(entries[0], entries, 0)
  {
    OffsetStep(entries, 0);
    hide Offset;
    assert entries[0][0..|entries[0]|] == entries[0];
  }

  lemma {:induction false} JoinedShows(entries: seq<string>, k: nat)
    requires k < |entries| && entries[0] != ""
    ensures ShowsAt(Joined(entries), entries, k)
    decreases |entries|
  {
    var n := |entries| - 1;
    hide *;
    JoinedStep(entries);
    if n == 0 {
      FirstShows(entries);
    } else {
      var before := entries[..n];
      if k < n {
        JoinedShows(before, k);
        assert Joined(entries) == Joined(before) + ("|" + entries[n]);
        ShowsFurther(Joined(before), "|" + entries[n], entries, n, k);
      } else {
        JoinedLength(before);
        OffsetOfPrefix(entries, n, n);
        LastShows(Joined(before), entries, n);
      }
    }
  }

  /** The text of a log whose first entry is not empty, character by character: the entries in order with one
      '|' between any two and nothing else. */
  lemma {:induction false} JoinedText(entries: seq<string>)
    requires entries != [] && entries[0] != ""
    ensures |Joined(entries)| == Sum(Lengths(entries)) + |entries| - 1
    ensures forall k: nat :: k < |entries| ==> ShowsAt(Joined(entries), entries, k)
  {
    JoinedLength(entries);
    assert entries[..|entries|] == entries;
    forall k: nat | k < |entries| ensures ShowsAt(Joined(entries), entries, k) {
      JoinedShows(entries, k);
    }
    hide Joined, ShowsAt;
  }

  /** Empty entries at the beginning leave no trace. */
  lemma {:induction false} LeadingEmpty(entries: seq<string>)
    ensures Joined([""] + entries) == Joined(entries)
  {
    var all := [""] + entries;
    if entries == [] {
      assert all[..0] == [];
    } else {
      LeadingEmpty(entries[..|entries| - 1]);
      assert all[..|all| - 1] == [""] + entries[..|entries| - 1];
    }
  }

  class GanttLog {
    var text: string

    constructor ()
      ensures text == Joined([])
    {
      text := "";
    }

    method Append(entry: string)
      modifies this
      ensures text == Appended(old(text), entry)
    {
      var separatorLength := if |text| > 0 then 1 else 0;
      if separatorLength > 0 {
        text := text + [SEPARATOR];
      }
      text := text + entry;
    }
  }

  // ---------- taking the log apart ----------

  /** No separator before position k, which is the end or a separator. */
  predicate EndsPiece(s: string, k: nat) {
    && k <= |s| && (k < |s| ==> s[k] == SEPARATOR)
    && forall i :: 0 <= i < k ==> s[i] != SEPARATOR
  }

  function FirstSeparator(s: string): (k: nat)
    ensures EndsPiece(s, k)
  {
    if s == "" || s[0] == SEPARATOR then 0 else 1 + FirstSeparator(s[1..])
  }

  /** The pieces between separators that are not empty. */
  function Tokens(s: string): (tokens: seq<string>) {
    if s == "" then []
    else
      var k := FirstSeparator(s);
      (if k == 0 then [] else [s[..k]]) + (if k == |s| then [] else Tokens(s[k + 1..]))
  }

  /** Room reserved for the tokens: one per separator, and one for a rest that is not empty. */
  function Segments(s: string): nat {
    if s == "" then 0
    else
      var k := FirstSeparator(s);
      1 + if k == |s| then 0 else Segments(s[k + 1..])
  }

  lemma {:induction false} OneEnd(s: string, j: nat, k: nat)
    requires EndsPiece(s, j) && EndsPiece(s, k)
    ensures j == k
  {
  }

  lemma NothingInEmpty()
    ensures Tokens("") == []
  {
  }

  lemma {:induction false} TokensUnfolded(s: string)
    ensures var k := FirstSeparator(s);
      s != "" ==> Tokens(s) == (if k == 0 then [] else [s[..k]]) + (if k == |s| then [] else Tokens(s[k + 1..]))
  {
    hide FirstSeparator;
  }

  lemma {:induction false} SegmentsUnfolded(s: string)
    ensures var k := FirstSeparator(s);
      s != "" ==> Segments(s) == 1 + if k == |s| then 0 else Segments(s[k + 1..])
  {
    hide FirstSeparator;
  }

  lemma {:induction false} FirstPiece(s: string, k: nat)
    requires EndsPiece(s, k)
    ensures k <= |s| && FirstSeparator(s) == k
    ensures Tokens(s) == (if k == 0 then [] else [s[..k]]) + (if k == |s| then [] else Tokens(s[k + 1..]))
    ensures s != "" ==> Segments(s) == 1 + if k == |s| then 0 else Segments(s[k + 1..])
  {
    assert k <= |s|;
    hide *;
    OneEnd(s, FirstSeparator(s), k);
    TokensUnfolded(s);
    SegmentsUnfolded(s);
    if s == "" { NothingInEmpty(); }
  }

  lemma {:induction false} TokensFit(s: string)
    ensures |Tokens(s)| <= Segments(s)
  {
    if s != "" {
      var k := FirstSeparator(s);
      hide Tokens, Segments, FirstSeparator;
      FirstPiece(s, k);
      if k < |s| { TokensFit(s[k + 1..]); }
    } else {
      assert Tokens(s) == [];
    }
  }

  predicate Plain(entry: string) {
    entry != "" && forall i :: 0 <= i < |entry| ==> entry[i] != SEPARATOR
  }

  lemma {:induction false} FirstPieceIsPlain(s: string, k: nat)
    requires EndsPiece(s, k) && 0 < k
    ensures Plain(s[..k])
  {
  }

  lemma {:induction false} TokensArePlain(s: string)
    ensures forall t :: t in Tokens(s) ==> Plain(t)
  {
    if s == "" {
      NothingInEmpty();
    } else {
      var k := FirstSeparator(s);
      hide Tokens, FirstSeparator, EndsPiece, Plain, Segments;
      FirstPiece(s, k);
      if 0 < k { FirstPieceIsPlain(s, k); }
      if k < |s| { TokensArePlain(s[k + 1..]); }
    }
  }

  /** The position of the next separator from p on, or the end (`strchr`); a token ends there, too. */
  method FindSeparator(log: string, p: nat) returns (sep: nat)
    requires p <= |log|
    ensures p <= sep <= |log| && EndsPiece(log[p..], sep - p)
  {
    sep := p;
    while sep < |log| && log[sep] != SEPARATOR
      invariant p <= sep <= |log|
      invariant forall k :: p <= k < sep ==> log[k] != SEPARATOR
    {
      sep := sep + 1;
    }
  }

  /** The first half of a call of the tokenizer: separators are skipped. */
  method SkipSeparators(s: string, pos: nat) returns (i: nat)
    requires pos <= |s|
    ensures pos <= i <= |s| && (i < |s| ==> s[i] != SEPARATOR)
    ensures Tokens(s[pos..]) == Tokens(s[i..])
  {
    hide Tokens, FirstSeparator, Segments;
    i := pos;
    while i < |s| && s[i] == SEPARATOR
      invariant pos <= i <= |s|
      invariant Tokens(s[pos..]) == Tokens(s[i..])
    {
      FirstPiece(s[i..], 0);
      assert s[i..][1..] == s[i + 1..];
      i := i + 1;
    }
  }

  /** One call of the tokenizer from position `pos` on. */
  method NextToken(s: string, pos: nat) returns (token: Option<string>, next: nat)
    requires pos <= |s|
    ensures next <= |s|
    ensures Tokens(s[pos..]) == if token.Some? then [token.value] + Tokens(s[next..]) else []
  {
    hide Tokens, FirstSeparator, Segments;
    NothingInEmpty();
    var i := SkipSeparators(s, pos);
    if i == |s| {
      assert s[i..] == "";
      return None, i;
    }
    var j := FindSeparator(s, i);
    assert i < j;
    token := Some(s[i..j]);
    next := if j < |s| then j + 1 else j;
    TokenAt(s, i, j);
  }

  lemma {:induction false} TokenAt(s: string, i: nat, j: nat)
    requires i < j <= |s| && EndsPiece(s[i..], j - i)
    ensures Tokens(s[i..]) == [s[i..j]] + if j < |s| then Tokens(s[j + 1..]) else Tokens(s[j..])
  {
    hide Tokens, FirstSeparator, EndsPiece, Segments;
    FirstPiece(s[i..], j - i);
    assert s[i..][..j - i] == s[i..j];
    if j < |s| {
      assert s[i..][j - i + 1..] == s[j + 1..];
    } else {
      assert s[j..] == "";
      NothingInEmpty();
    }
  }

  /** The counting loop in front of the tokenizer. */
  method CountSegments(log: string) returns (count: nat)
    ensures count == Segments(log)
  {
    hide Tokens, FirstSeparator, EndsPiece;
    count := 0;
    var p := 0;
    assert log[0..] == log;
    while p < |log|
      invariant 0 <= p <= |log|
      invariant count + Segments(log[p..]) == Segments(log)
    {
      count := count + 1;
      var sep := FindSeparator(log, p);
      FirstPiece(log[p..], sep - p);
      if sep == |log| {
        break;
      }
      assert log[p..][sep - p + 1..] == log[sep + 1..];
      p := sep + 1;
    }
  }

  /** The log as an array of tokens, of which the first `used` are filled. The room counted beforehand
      is enough, so that no entry is dropped. */
  method Split(log: string) returns (tokens: array<string>, used: nat)
    ensures fresh(tokens) && used <= tokens.Length == Segments(log)
    ensures tokens[..used] == Tokens(log)
  {
    hide Tokens, FirstSeparator, Segments;
    var count := CountSegments(log);
    tokens := new string[count];
    used := 0;
    var token, next := NextToken(log, 0);
    TokensFit(log);
    assert log[0..] == log;
    while token.Some? && used < count
      invariant 0 <= next <= |log| && used <= count == tokens.Length
      invariant tokens[..used] + (if token.Some? then [token.value] + Tokens(log[next..]) else []) == Tokens(log)
      decreases count - used
    {
      tokens[used] := token.value;
      used := used + 1;
      token, next := NextToken(log, next);
    }
  }

  /** The room reserved, counted: one place for each separator, and one for a rest behind the last one. */
  lemma {:induction false} SegmentsCounted(s: string)
    ensures Segments(s) == Count(s, '|') + if s != "" && s[|s| - 1] != '|' then 1 else 0
  {
    if s != "" {
      var k := FirstSeparator(s);
      hide FirstSeparator;
      CountNone(s[..k], '|');
      if k < |s| {
        var rest := s[k + 1..];
        assert s == (s[..k] + ['|']) + rest;
        CountConcat(s[..k] + ['|'], rest, '|');
        CountConcat(s[..k], ['|'], '|');
        assert Count(['|'], '|') == 1 by { assert ['|'][..0] == []; }
        SegmentsCounted(rest);
        assert rest != "" ==> rest[|rest| - 1] == s[|s| - 1];
      } else {
        assert s[..k] == s;
      }
    }
  }

  // ---------- round trip ----------

  /** Where the first piece of a longer log ends, and what is behind it. */
  lemma {:induction false} PieceOfConcat(log: string, entry: string, k: nat)
    requires EndsPiece(log, k)
    ensures var s := log + [SEPARATOR] + entry;
      && EndsPiece(s, k) && k < |s| && s[..k] == log[..k]
      && s[k + 1..] == if k == |log| then entry else log[k + 1..] + [SEPARATOR] + entry
  {
    var s := log + [SEPARATOR] + entry;
    assert forall i :: 0 <= i < |log| ==> s[i] == log[i];
    if k == |log| {
      assert s[k + 1..] == entry;
    } else {
      assert s[k + 1..] == log[k + 1..] + [SEPARATOR] + entry;
    }
  }

  lemma {:induction false} TokensConcat(log: string, entry: string)
    ensures Tokens(log + [SEPARATOR] + entry) == Tokens(log) + Tokens(entry)
    decreases |log|
  {
    var s := log + [SEPARATOR] + entry;
    var k := FirstSeparator(log);
    hide Tokens, FirstSeparator, EndsPiece;
    PieceOfConcat(log, entry, k);
    FirstPiece(log, k);
    FirstPiece(s, k);
    if k < |log| {
      TokensConcat(log[k + 1..], entry);
      PiecesInRow(if k == 0 then [] else [log[..k]], Tokens(log[k + 1..]), Tokens(entry));
    } else {
      PiecesInRow(if k == 0 then [] else [log[..k]], [], Tokens(entry));
    }
  }

  lemma {:induction false} PiecesInRow(a: seq<string>, b: seq<string>, c: seq<string>)
    ensures a + (b + c) == (a + b) + c && [] + c == c
  {
  }

  lemma {:induction false} TokensAppended(log: string, entry: string)
    ensures Tokens(Appended(log, entry)) == Tokens(log) + Tokens(entry)
  {
    hide Tokens;
    NothingInEmpty();
    if log != "" { TokensConcat(log, entry); }
  }

  lemma {:induction false} PlainIsItsOwnToken(entry: string)
    requires Plain(entry)
    ensures Tokens(entry) == [entry]
  {
    hide Tokens, FirstSeparator;
    FirstPiece(entry, |entry|);
    assert entry[..|entry|] == entry;
  }

  lemma {:induction false} JoinedLast(entries: seq<string>)
    requires entries != []
    ensures var n := |entries| - 1;
      Joined(entries) == Appended(Joined(entries[..n]), entries[n]) && entries == entries[..n] + [entries[n]]
  {
    hide Appended;
    var n := |entries| - 1;
    assert entries == entries[..n] + [entries[n]] by { hide Joined; }
  }

  lemma {:induction false} PlainEntriesReturn(entries: seq<string>)
    requires forall e :: e in entries ==> Plain(e)
    ensures Tokens(Joined(entries)) == entries
  {
    if entries != [] {
      hide *;
      var n := |entries| - 1;
      PlainEntriesReturn(entries[..n]);
      JoinedLast(entries);
      TokensAppended(Joined(entries[..n]), entries[n]);
      PlainIsItsOwnToken(entries[n]);
    }
  }

  /** Splitting the log gives back what was appended exactly if every entry is non-empty and free of
      the separator. */
  lemma {:induction false} RoundTrip(entries: seq<string>)
    ensures Tokens(Joined(entries)) == entries <==> forall e :: e in entries ==> Plain(e)
  {
    TokensArePlain(Joined(entries));
    if forall e :: e in entries ==> Plain(e) {
      PlainEntriesReturn(entries);
    }
  }

  lemma {:induction false} SeparatorsCounted(entries: seq<string>)
    requires entries != [] && forall e :: e in entries ==> Plain(e)
    ensures Count(Joined(entries), '|') == |entries| - 1
    ensures Joined(entries) != "" && Joined(entries)[|Joined(entries)| - 1] != '|'
  {
    var n := |entries| - 1;
    var last := entries[n];
    assert entries[0] in entries && last in entries;
    JoinedStep(entries);
    CountNone(last, '|');
    hide Joined;
    if n > 0 {
      var text := Joined(entries[..n]);
      SeparatorsCounted(entries[..n]);
      CountConcat(text + "|", last, '|');
      CountConcat(text, "|", '|');
      assert Count("|", '|') == 1 by { assert "|"[..0] == []; }
    }
  }

  /** For the log of plain entries the room reserved is exactly that of the entries. */
  lemma {:induction false} PlainEntriesFitExactly(entries: seq<string>)
    requires forall e :: e in entries ==> Plain(e)
    ensures Segments(Joined(entries)) == |entries|
  {
    if entries != [] {
      SegmentsCounted(Joined(entries));
      SeparatorsCounted(entries);
      hide Segments, Joined, Count;
    }
  }
}
