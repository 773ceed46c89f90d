/**
 The server-sent-event tail transformer: it passes every chunk on, keeps the last 8192
 characters, and at the end appends a completion line unless the stream ended with one.
 Streams are ASCII, so decoding a chunk on its own loses nothing.
 */
module SseTrailer {
  import opened Outcomes

  const TailLength: nat := 8192
  const DoneLine := "data: [DONE]"

  // ---------------------------------------------------------------- texts

  predicate IsBlank(c: char) { c in " \t\n\r" || c == 11 as char || c == 12 as char }

  /** Carriage return and line feed become one line feed. */
  function Unified(s: string): string {
    if |s| < 2 then s
    else if s[0] == '\r' && s[1] == '\n' then "\n" + Unified(s[2..])
    else [s[0]] + Unified(s[1..])
  }

  function TrimEnd(s: string): string {
    if s == "" || !IsBlank(s[|s| - 1]) then s else TrimEnd(s[..|s| - 1])
  }

  function TrimStart(s: string): string {
    if s == "" || !IsBlank(s[0]) then s else TrimStart(s[1..])
  }

  /** What follows the last line feed. */
  function LastLine(s: string): string {
    if s == "" || s[|s| - 1] == '\n' then "" else LastLine(s[..|s| - 1]) + [s[|s| - 1]]
  }

  /** The last nonblank line, as the trailer check sees it. */
  function FinalLine(s: string): string {
    LastLine(TrimEnd(Unified(s)))
  }

  function Trailer(tail: string): Option<string> {
    if TrimStart(TrimEnd(FinalLine(tail))) == DoneLine then None
    else Some((if tail == "" || tail[|tail| - 1] == '\n' then "" else "\n") + DoneLine + "\n\n")
  }

  function Last(s: string, n: nat): (r: string)
    ensures |r| <= n && |r| <= |s| && r == s[|s| - |r|..]
  {
    if |s| <= n then s else s[|s| - n..]
  }

  /** What the flush appends. */
  function Ending(tail: string): string {
    if Trailer(tail).Some? then Trailer(tail).value else ""
  }

  // ---------------------------------------------------------------- the transform

  class Transformer {
    var tail: string

    constructor ()
      ensures tail == ""
    {
      tail := "";
    }

    method Transform(chunk: string) returns (out: string)
      modifies this
      ensures out == chunk && tail == Last(old(tail) + chunk, TailLength)
    {
      tail := Last(tail + chunk, TailLength);
      out := chunk;
    }

    method Flush() returns (out: string)
      ensures out == Ending(tail)
    {
      var trailer := Trailer(tail);
      out := if trailer.Some? then trailer.value else "";
    }
  }

  function Joined(chunks: seq<string>): string {
    if chunks == [] then "" else Joined(chunks[..|chunks| - 1]) + chunks[|chunks| - 1]
  }

  /** What a stream becomes. */
  function Completed(s: string): string {
    s + Ending(Last(s, TailLength))
  }

  lemma LastOfLast(s: string, c: string, n: nat)
    ensures Last(Last(s, n) + c, n) == Last(s + c, n)
  {
    if |s| > n {
      var t := Last(s, n);
      assert t + c == (s + c)[|s| - n..];
    }
  }

  lemma JoinedNext(chunks: seq<string>, i: nat)
    requires i < |chunks|
    ensures Joined(chunks[..i + 1]) == Joined(chunks[..i]) + chunks[i]
  {
    assert chunks[..i + 1][..i] == chunks[..i];
  }

  /** All chunks go through unchanged, and the tail is the end of what went through. */
  method PassAll(t: Transformer, chunks: seq<string>) returns (out: string)
    requires t.tail == ""
    modifies t
    ensures out == Joined(chunks) && t.tail == Last(Joined(chunks), TailLength)
  {
    out := "";
    for i := 0 to |chunks|
      invariant out == Joined(chunks[..i]) && t.tail == Last(out, TailLength)
    {
      LastOfLast(out, chunks[i], TailLength);
      JoinedNext(chunks, i);
      var passed := t.Transform(chunks[i]);
      out := out + passed;
    }
    assert chunks[..|chunks|] == chunks;
  }

  /** Whatever the chunking, the output is the whole input and a trailer decided by its last
      8192 characters. */
  method Complete(chunks: seq<string>) returns (out: string)
    ensures out == Completed(Joined(chunks))
  {
    var t := new Transformer();
    out := PassAll(t, chunks);
    var trailer := t.Flush();
    out := out + trailer;
  }

  // ---------------------------------------------------------------- lines

  predicate HasText(s: string) {
    exists i :: 0 <= i < |s| && !IsBlank(s[i])
  }

  lemma SplitAt(s: string, cut: nat)
    requires cut < |s| && s[cut] == '\n'
    ensures s == s[..cut] + "\n" + s[cut + 1..]
  {}

  lemma DropOne(a: string, b: string)
    requires a != ""
    ensures (a + "\n" + b)[1..] == a[1..] + "\n" + b && (a + "\n" + b)[0] == a[0]
  {}

  /** Unifying a text at a line feed: the part before it loses at most a final carriage return. */
  lemma {:induction false} UnifiedAtBreak(a: string, b: string) returns (p: string)
    ensures Unified(a + "\n" + b) == p + "\n" + Unified(b)
    decreases |a|
  {
    var s := a + "\n" + b;
    if a == "" {
      p := "";
      assert s == "\n" + b && (b != "" ==> s[1..] == b);
    } else if a[0] == '\r' && s[1] == '\n' {
      if |a| == 1 {
        p := "";
        assert s[2..] == b;
      } else {
        var q := UnifiedAtBreak(a[2..], b);
        DropOne(a, b);
        DropOne(a[1..], b);
        assert s[2..] == s[1..][1..] && a[2..] == a[1..][1..];
        p := "\n" + q;
        assert p + "\n" + Unified(b) == "\n" + (q + "\n" + Unified(b));
      }
    } else {
      var q := UnifiedAtBreak(a[1..], b);
      DropOne(a, b);
      p := [a[0]] + q;
      assert p + "\n" + Unified(b) == [a[0]] + (q + "\n" + Unified(b));
    }
  }

  lemma {:induction false} UnifiedKeepsText(s: string)
    ensures HasText(s) ==> HasText(Unified(s))
    decreases |s|
  {
    if |s| >= 2 && HasText(s) {
      var i :| 0 <= i < |s| && !IsBlank(s[i]);
      if s[0] == '\r' && s[1] == '\n' {
        assert !IsBlank(s[2..][i - 2]);
        UnifiedKeepsText(s[2..]);
        var k :| 0 <= k < |Unified(s[2..])| && !IsBlank(Unified(s[2..])[k]);
        assert !IsBlank(Unified(s)[k + 1]);
      } else if i == 0 {
        assert !IsBlank(Unified(s)[0]);
      } else {
        assert !IsBlank(s[1..][i - 1]);
        UnifiedKeepsText(s[1..]);
        var k :| 0 <= k < |Unified(s[1..])| && !IsBlank(Unified(s[1..])[k]);
        assert !IsBlank(Unified(s)[k + 1]);
      }
    }
  }

  lemma {:induction false} TrimEndOfConcat(a: string, b: string)
    requires HasText(b)
    ensures TrimEnd(a + b) == a + TrimEnd(b)
    decreases |b|
  {
    if IsBlank(b[|b| - 1]) {
      var i :| 0 <= i < |b| && !IsBlank(b[i]);
      var c := b[..|b| - 1];
      assert !IsBlank(c[i]);
      TrimEndOfConcat(a, c);
      assert (a + b)[..|a + b| - 1] == a + c;
    }
  }

  lemma {:induction false} LastLineAfterBreak(a: string, b: string)
    ensures LastLine(a + "\n" + b) == LastLine(b)
    decreases |b|
  {
    var s := a + "\n" + b;
    if b == "" {
      assert s[|s| - 1] == '\n';
    } else {
      LastLineAfterBreak(a, b[..|b| - 1]);
      assert s[..|s| - 1] == a + "\n" + b[..|b| - 1] && s[|s| - 1] == b[|b| - 1];
    }
  }

  /** Only what follows a line feed matters, once there is text in it. */
  lemma FinalLineAfterBreak(a: string, b: string)
    requires HasText(b)
    ensures FinalLine(a + "\n" + b) == FinalLine(b)
  {
    var p := UnifiedAtBreak(a, b);
    UnifiedKeepsText(b);
    TrimEndOfConcat(p + "\n", Unified(b));
    LastLineAfterBreak(p, TrimEnd(Unified(b)));
  }

  /** The last nonblank line and the line feed before it lie within the text. */
  predicate HoldsFinalLine(t: string) {
    exists k :: 0 <= k < |t| && t[k] == '\n' && HasText(t[k + 1..])
  }

  lemma HeldTail(s: string, t: string)
    requires |t| <= |s| && t == s[|s| - |t|..] && HoldsFinalLine(t)
    ensures FinalLine(t) == FinalLine(s) && t != ""
  {
    var k :| 0 <= k < |t| && t[k] == '\n' && HasText(t[k + 1..]);
    SameFinalLine(s, t, k);
  }

  /**
   Truncation does not matter: if the kept tail holds the last nonblank line with its preceding
   line feed, or the stream is no longer than the tail, the trailer is that of the whole stream.
   */
  lemma TailDecidesAsWhole(s: string)
    requires |s| <= TailLength || HoldsFinalLine(Last(s, TailLength))
    ensures Trailer(Last(s, TailLength)) == Trailer(s)
  {
    if |s| > TailLength {
      HeldTail(s, Last(s, TailLength));
      SameTrailer(Last(s, TailLength), s);
    }
  }

  lemma SameTrailer(t: string, s: string)
    requires FinalLine(t) == FinalLine(s) && t != "" && s != "" && t[|t| - 1] == s[|s| - 1]
    ensures Trailer(t) == Trailer(s)
  {}

  /** The final line of a text and of its end, when the end holds it. */
  lemma SameFinalLine(s: string, t: string, k: nat)
    requires |t| <= |s| && t == s[|s| - |t|..] && k < |t| && t[k] == '\n' && HasText(t[k + 1..])
    ensures FinalLine(t) == FinalLine(s)
  {
    var cut := |s| - |t| + k;
    assert s[cut] == t[k] && s[cut + 1..] == t[k + 1..];
    SplitAt(t, k);
    SplitAt(s, cut);
    FinalLineAfterBreak(t[..k], t[k + 1..]);
    FinalLineAfterBreak(s[..cut], t[k + 1..]);
  }

  // ---------------------------------------------------------------- applying it twice

  lemma {:induction false} UnifiedOfPlain(s: string)
    requires forall i :: 0 <= i < |s| ==> s[i] != '\r'
    ensures Unified(s) == s
    decreases |s|
  {
    if |s| >= 2 {
      UnifiedOfPlain(s[1..]);
    }
  }

  lemma {:induction false} LastLineOfLine(s: string)
    requires forall i :: 0 <= i < |s| ==> s[i] != '\n'
    ensures LastLine(s) == s
  {
    if s != "" {
      LastLineOfLine(s[..|s| - 1]);
    }
  }

  lemma {:induction false} TrimEndOfBlank(s: string, c: char)
    requires IsBlank(c)
    ensures TrimEnd(s + [c]) == TrimEnd(s)
  {
    assert (s + [c])[..|s|] == s;
  }

  lemma DoneLineTexts()
    ensures forall i :: 0 <= i < |DoneLine| ==> DoneLine[i] != '\r' && DoneLine[i] != '\n'
    ensures |DoneLine| == 12 && !IsBlank(DoneLine[0]) && !IsBlank(DoneLine[11])
  {}

  lemma TrimEndOfDone()
    ensures TrimEnd(DoneLine + "\n\n") == DoneLine && TrimStart(TrimEnd(DoneLine)) == DoneLine
  {
    DoneLineTexts();
    assert DoneLine + "\n\n" == (DoneLine + ['\n']) + ['\n'];
    TrimEndOfBlank(DoneLine + ['\n'], '\n');
    TrimEndOfBlank(DoneLine, '\n');
  }

  lemma TrailerReadsDone()
    ensures FinalLine(DoneLine + "\n\n") == DoneLine && HasText(DoneLine + "\n\n")
    ensures TrimStart(TrimEnd(DoneLine)) == DoneLine
  {
    DoneLineTexts();
    UnifiedOfPlain(DoneLine + "\n\n");
    TrimEndOfDone();
    LastLineOfLine(DoneLine);
    assert !IsBlank((DoneLine + "\n\n")[0]);
  }

  /** A text that ends with a line feed and the completion line reads as completed. */
  lemma DoneAtEnd(pre: string)
    ensures Trailer(pre + "\n" + (DoneLine + "\n\n")) == None
  {
    TrailerReadsDone();
    FinalLineAfterBreak(pre, DoneLine + "\n\n");
  }

  /** The tail of a completed stream, after its last line feed before the completion line. */
  lemma TailOfDone(pre: string) returns (rest: string)
    ensures Last(pre + "\n" + (DoneLine + "\n\n"), TailLength) == rest + "\n" + (DoneLine + "\n\n")
  {
    var done := DoneLine + "\n\n";
    var out := pre + "\n" + done;
    var cut := if |out| <= TailLength then 0 else |out| - TailLength;
    assert cut <= |pre|;
    rest := pre[cut..];
    assert out[cut..] == rest + "\n" + done;
    assert Last(out, TailLength) == out[cut..];
  }

  lemma CompletedText(s: string) returns (pre: string)
    requires Trailer(Last(s, TailLength)).Some? && s != ""
    ensures Completed(s) == pre + "\n" + (DoneLine + "\n\n")
  {
    var t := Last(s, TailLength);
    assert t != "" && t[|t| - 1] == s[|s| - 1];
    assert Completed(s) == s + Trailer(t).value;
    if s[|s| - 1] == '\n' {
      pre := s[..|s| - 1];
      assert s == pre + "\n" && Trailer(t).value == DoneLine + "\n\n";
    } else {
      pre := s;
      assert Trailer(t).value == "\n" + (DoneLine + "\n\n");
    }
  }

  lemma NothingToAdd(s: string)
    requires Trailer(Last(s, TailLength)).None?
    ensures Completed(s) == s
  {}

  lemma DoneAlone()
    ensures Trailer(DoneLine + "\n\n") == None && Last(DoneLine + "\n\n", TailLength) == DoneLine + "\n\n"
  {
    TrailerReadsDone();
  }

  lemma CompletedEmpty()
    ensures Trailer(Last("", TailLength)).Some? ==> Completed("") == DoneLine + "\n\n"
  {}

  /** A completed stream needs no second completion. */
  lemma CompletedOnce(s: string)
    ensures Completed(Completed(s)) == Completed(s)
  {
    if Trailer(Last(s, TailLength)).None? {
      NothingToAdd(s);
    } else if s == "" {
      CompletedEmpty();
      DoneAlone();
      NothingToAdd(Completed(s));
    } else {
      var pre := CompletedText(s);
      var rest := TailOfDone(pre);
      DoneAtEnd(rest);
      NothingToAdd(Completed(s));
    }
  }
}
