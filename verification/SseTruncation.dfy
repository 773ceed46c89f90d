/**
 What keeping only the last 8192 characters costs the trailer check: exactly when the kept tail
 and the whole stream get the same trailer.
 */
module SseTruncation {
  import opened Outcomes
  import opened SseTrailer

  function Trim(s: string): string { TrimStart(TrimEnd(s)) }

  /** What a truncated stream has lost, and the part of the last line that is lost with it. */
  function Lost(s: string): string
    requires |s| > TailLength
  {
    s[..|s| - TailLength]
  }

  function LostOfLine(s: string): string
    requires |s| > TailLength
  {
    LastLine(Unified(Lost(s)))
  }

  // ---------------------------------------------------------------- appending

  predicate Breaks(s: string, c: char) { s != "" && s[|s| - 1] == '\r' && c == '\n' }

  /** Where the next unit of `Unified` ends. */
  function Unit(s: string): nat
    requires |s| >= 2
  {
    if s[0] == '\r' && s[1] == '\n' then 2 else 1
  }

  lemma UnifiedUnit(s: string, more: string)
    requires |s| >= 2
    ensures |s + more| >= 2 && Unit(s + more) == Unit(s) && (s + more)[Unit(s)..] == s[Unit(s)..] + more
    ensures Unified(s + more) == [if Unit(s) == 2 then '\n' else s[0]] + Unified(s[Unit(s)..] + more)
  {
    assert (s + more)[Unit(s)..] == s[Unit(s)..] + more;
  }

  lemma {:induction false} UnifiedNext(s: string, c: char)
    requires !Breaks(s, c)
    ensures Unified(s + [c]) == Unified(s) + [c]
    decreases |s|
  {
    if |s| >= 2 {
      var rest := s[Unit(s)..];
      UnifiedUnit(s, [c]);
      UnifiedUnit(s, "");
      assert s + "" == s && rest + "" == rest;
      UnifiedNext(rest, c);
    } else if |s| == 1 {
      assert (s + [c])[1..] == [c] && (s + [c])[2..] == "";
    }
  }

  lemma UnifiedBreak(s: string)
    ensures Unified(s + "\r\n") == Unified(s) + "\n" && Unified(s + "\r") == Unified(s) + "\r"
    decreases |s|
  {
    if |s| >= 2 {
      var rest := s[Unit(s)..];
      UnifiedUnit(s, "\r\n");
      UnifiedUnit(s, "\r");
      UnifiedUnit(s, "");
      assert s + "" == s && rest + "" == rest;
      UnifiedBreak(rest);
    } else if |s| == 1 {
      assert (s + "\r\n")[1..] == "\r\n" && "\r\n"[2..] == "" && (s + "\r")[1..] == "\r";
    } else {
      assert s + "\r\n" == "\r\n" && s + "\r" == "\r" && "\r\n"[2..] == "";
    }
  }

  lemma FinalLineOfBlank(s: string, c: char)
    requires IsBlank(c)
    ensures FinalLine(s + [c]) == FinalLine(s)
  {
    if Breaks(s, c) {
      var f := s[..|s| - 1];
      UnifiedBreak(f);
      assert s == f + "\r" && s + [c] == f + "\r\n";
      TrimEndOfBlank(Unified(f), '\n');
      TrimEndOfBlank(Unified(f), '\r');
    } else {
      UnifiedNext(s, c);
      TrimEndOfBlank(Unified(s), c);
    }
  }

  lemma {:induction false} FinalLineOfBlanks(s: string, b: string)
    requires !HasText(b)
    ensures FinalLine(s + b) == FinalLine(s)
    decreases |b|
  {
    if b == "" {
      assert s + b == s;
    } else {
      var c := b[..|b| - 1];
      assert forall i :: 0 <= i < |c| ==> IsBlank(c[i]) by {
        forall i | 0 <= i < |c| ensures IsBlank(c[i]) { assert c[i] == b[i]; }
      }
      FinalLineOfBlanks(s, c);
      FinalLineOfBlank(s + c, b[|b| - 1]);
      assert s + b == (s + c) + [b[|b| - 1]];
    }
  }

  lemma {:induction false} UnifiedOfLine(s: string, b: string)
    requires '\n' !in b
    ensures Unified(s + b) == Unified(s) + b
    decreases |b|
  {
    if b == "" {
      assert s + b == s;
    } else {
      var c := b[..|b| - 1];
      UnifiedOfLine(s, c);
      UnifiedNext(s + c, b[|b| - 1]);
      assert s + b == (s + c) + [b[|b| - 1]];
    }
  }

  lemma {:induction false} LastLineOfMore(s: string, b: string)
    requires '\n' !in b
    ensures LastLine(s + b) == LastLine(s) + b
    decreases |b|
  {
    if b == "" {
      assert s + b == s;
    } else {
      LastLineOfMore(s, b[..|b| - 1]);
      assert (s + b)[..|s + b| - 1] == s + b[..|b| - 1];
    }
  }

  // ---------------------------------------------------------------- trimming

  /** A text with text in it is what is left of it at the end, and blanks. */
  lemma {:induction false} TrimEndLeaves(s: string) returns (blanks: string)
    requires HasText(s)
    ensures s == TrimEnd(s) + blanks && !HasText(blanks)
    ensures TrimEnd(s) != "" && !IsBlank(TrimEnd(s)[|TrimEnd(s)| - 1])
    decreases |s|
  {
    if IsBlank(s[|s| - 1]) {
      var f := s[..|s| - 1];
      var i :| 0 <= i < |s| && !IsBlank(s[i]);
      assert !IsBlank(f[i]);
      var rest := TrimEndLeaves(f);
      blanks := rest + [s[|s| - 1]];
    } else {
      blanks := "";
    }
  }

  lemma {:induction false} TrimStartOfBlanks(o: string, b: string)
    requires !HasText(o)
    ensures TrimStart(o + b) == TrimStart(b)
    decreases |o|
  {
    if o == "" {
      assert o + b == b;
    } else {
      assert forall i :: 0 <= i < |o[1..]| ==> o[1..][i] == o[i + 1];
      TrimStartOfBlanks(o[1..], b);
      assert (o + b)[1..] == o[1..] + b;
    }
  }

  lemma {:induction false} TrimStartOfText(o: string, b: string)
    requires HasText(o)
    ensures TrimStart(o + b) == TrimStart(o) + b && TrimStart(o) != ""
    decreases |o|
  {
    if IsBlank(o[0]) {
      var i :| 0 <= i < |o| && !IsBlank(o[i]);
      assert !IsBlank(o[1..][i - 1]);
      TrimStartOfText(o[1..], b);
      assert (o + b)[1..] == o[1..] + b;
    }
  }

  lemma {:induction false} TrimStartShortens(s: string)
    ensures |TrimStart(s)| <= |s|
  {
    if s != "" && IsBlank(s[0]) {
      TrimStartShortens(s[1..]);
    }
  }

  // ---------------------------------------------------------------- the final line

  lemma LineFeedHeld(t: string, b: string, k: nat)
    requires b <= t && k < |b| && b[k] == '\n' && !IsBlank(b[|b| - 1])
    ensures HoldsFinalLine(t)
  {
    assert t[k] == '\n' && !IsBlank(t[k + 1..][|b| - k - 2]);
  }

  /** Text without a line feed before it is one line, and blanks. */
  lemma OneLine(t: string) returns (blanks: string)
    requires HasText(t) && !HoldsFinalLine(t)
    ensures t == TrimEnd(t) + blanks && !HasText(blanks) && '\n' !in TrimEnd(t)
  {
    blanks := TrimEndLeaves(t);
    var b := TrimEnd(t);
    if '\n' in b {
      var k :| 0 <= k < |b| && b[k] == '\n';
      LineFeedHeld(t, b, k);
    }
  }

  lemma TrimmedLine(s: string, b: string)
    requires '\n' !in b && b != "" && !IsBlank(b[|b| - 1])
    ensures FinalLine(s + b) == LastLine(Unified(s)) + b
  {
    UnifiedOfLine(s, b);
    LastLineOfMore(Unified(s), b);
  }

  lemma TrimEndTwice(o: string, t: string)
    requires HasText(t)
    ensures TrimEnd(o + TrimEnd(t)) == TrimEnd(o + t) && TrimEnd(t) != "" && !IsBlank(TrimEnd(t)[|TrimEnd(t)| - 1])
  {
    var blanks := TrimEndLeaves(t);
    TrimEndOfConcat(o, t);
  }

  lemma LineAcross(s: string, head: string, u: string, b: string, blanks: string)
    requires s == u + blanks && u == head + b && !HasText(blanks)
    requires '\n' !in b && b != "" && !IsBlank(b[|b| - 1])
    ensures FinalLine(s) == LastLine(Unified(head)) + b
  {
    FinalLineOfBlanks(u, blanks);
    TrimmedLine(head, b);
  }

  /** The final line of a text whose end holds text but no line feed before it. */
  lemma FinalLineAcross(head: string, t: string)
    requires HasText(t) && !HoldsFinalLine(t)
    ensures Trim(FinalLine(head + t)) == Trim(LastLine(Unified(head)) + t)
  {
    var blanks := OneLine(t);
    TrimEndTwice(LastLine(Unified(head)), t);
    LineAcross(head + t, head, head + TrimEnd(t), TrimEnd(t), blanks);
  }

  lemma FinalLineOfTail(t: string)
    requires HasText(t) && !HoldsFinalLine(t)
    ensures Trim(FinalLine(t)) == Trim(t)
  {
    FinalLineAcross("", t);
    assert "" + t == t && LastLine(Unified("")) + t == t;
  }

  lemma BlankTail(head: string, t: string)
    requires !HasText(t)
    ensures FinalLine(head + t) == FinalLine(head) && Trim(FinalLine(t)) != DoneLine
  {
    FinalLineOfBlanks(head, t);
    FinalLineOfBlanks("", t);
    assert "" + t == t;
  }

  lemma SameTrailerExactlyWhen(t: string, s: string)
    requires t != "" && s != "" && t[|t| - 1] == s[|s| - 1]
    ensures Trailer(t) == Trailer(s) <==> (Trim(FinalLine(t)) == DoneLine <==> Trim(FinalLine(s)) == DoneLine)
  {}

  /** The lost part of the line decides nothing if it is blank, and only "data: [DONE]" itself if not. */
  lemma AcrossExactlyWhen(o: string, t: string)
    requires HasText(t)
    ensures (Trim(t) == DoneLine <==> Trim(o + t) == DoneLine) <==>
      !HasText(o) || (Trim(t) != DoneLine && Trim(o + t) != DoneLine)
  {
    TrimEndOfConcat(o, t);
    if HasText(o) {
      TrimStartOfText(o, TrimEnd(t));
      TrimStartShortens(TrimEnd(t));
    } else {
      TrimStartOfBlanks(o, TrimEnd(t));
    }
  }

  /**
   A stream longer than the tail gets the trailer its whole text calls for exactly when the tail
   holds the final line with its line feed; or holds text, and the lost part of that line is
   blank or neither the tail nor the whole line reads as completion; or holds none, and the
   final line that was lost does not read as completion.
   */
  lemma TailDecidesExactlyWhen(s: string)
    requires |s| > TailLength
    ensures var t, o := Last(s, TailLength), LostOfLine(s);
      Trailer(t) == Trailer(s) <==>
        || HoldsFinalLine(t)
        || (HasText(t) && (!HasText(o) || (Trim(t) != DoneLine && Trim(o + t) != DoneLine)))
        || (!HasText(t) && Trim(FinalLine(Lost(s))) != DoneLine)
  {
    var head, t := Lost(s), Last(s, TailLength);
    assert s == head + t;
    SameTrailerExactlyWhen(t, s);
    if HoldsFinalLine(t) {
      HeldTail(s, t);
    } else if HasText(t) {
      FinalLineOfTail(t);
      FinalLineAcross(head, t);
      AcrossExactlyWhen(LostOfLine(s), t);
    } else {
      BlankTail(head, t);
    }
  }

  // ---------------------------------------------------------------- a lost trailer

  function Blanks(n: nat): (b: string)
    ensures |b| == n && forall i :: 0 <= i < n ==> b[i] == ' '
  {
    seq(n, i => ' ')
  }

  /** One long last line that is not the completion line, but whose last 8192 characters read
      as it: "x", 8180 blanks, "data: [DONE]". The stream gets no trailer although it calls for one. */
  lemma TrailerLost(n: nat)
    requires n + |DoneLine| == TailLength
    ensures var s := "x" + Blanks(n) + DoneLine;
      Trailer(Last(s, TailLength)) == None && Trailer(s) == Some("\n" + DoneLine + "\n\n")
  {
    LongLine("x", Blanks(n));
  }

  lemma LongLine(x: string, b: string)
    requires x != "" && x[0] != '\r' && |x| == 1 && !IsBlank(x[0]) && |b| + |DoneLine| == TailLength
    requires forall i :: 0 <= i < |b| ==> b[i] == ' '
    ensures var s := x + b + DoneLine;
      Trailer(Last(s, TailLength)) == None && Trailer(s) == Some("\n" + DoneLine + "\n\n")
  {
    var s, t := x + b + DoneLine, b + DoneLine;
    assert s == x + t && s[1..] == t && Lost(s) == x && Last(s, TailLength) == t;
    PaddedDone(b);
    OneCharacter(x);
    TailDecidesExactlyWhen(s);
    FinalLineOfTail(t);
    SameTrailerExactlyWhen(t, s);
  }

  lemma OneCharacter(x: string)
    requires |x| == 1 && !IsBlank(x[0])
    ensures LastLine(Unified(x)) == x && HasText(x)
  {
    LastLineOfLine(x);
  }

  lemma PaddedDone(b: string)
    requires forall i :: 0 <= i < |b| ==> b[i] == ' '
    ensures HasText(b + DoneLine) && !HoldsFinalLine(b + DoneLine) && Trim(b + DoneLine) == DoneLine
  {
    DoneLineTexts();
    var t := b + DoneLine;
    assert !IsBlank(t[|b|]) && '\n' !in t;
    TrimEndOfConcat(b, DoneLine);
    TrimStartOfBlanks(b, DoneLine);
  }
}
