/** The pattern that recognises a COMMIT statement in the wire proxy. */
module CommitPattern {

  /** The characters matched by the regular-expression class of white space. */
  predicate IsSpace(c: char) {
    c as int in {9, 10, 11, 12, 13, 32, 0xA0, 0x1680, 0x2028, 0x2029, 0x202F, 0x205F, 0x3000, 0xFEFF}
    || 0x2000 <= c as int <= 0x200A
  }

  predicate AllSpace(s: string) {
    forall i :: 0 <= i < |s| ==> IsSpace(s[i])
  }

  predicate IsCommitWord(w: string) {
    |w| == 6 && w[0] in "Cc" && w[1] in "Oo" && w[2] in "Mm" && w[3] in "Mm" && w[4] in "Ii" && w[5] in "Tt"
  }

  function SkipSpace(s: string): string {
    if s != "" && IsSpace(s[0]) then SkipSpace(s[1..]) else s
  }

  /** `/^\s*COMMIT\s*;?\s*$/i`, matched left to right. */
  predicate IsCommitText(s: string) {
    var a := SkipSpace(s);
    |a| >= 6 && IsCommitWord(a[..6]) &&
    var b := SkipSpace(a[6..]);
    b == "" || (b[0] == ';' && SkipSpace(b[1..]) == "")
  }

  /** White space, COMMIT in any case, white space, an optional semicolon, white space. */
  ghost predicate CommitShape(s: string, before: string, word: string, after: string, semicolon: string, end: string) {
    s == before + (word + (after + (semicolon + end))) && AllSpace(before) && AllSpace(after) && AllSpace(end)
    && IsCommitWord(word) && (semicolon == "" || semicolon == ";")
  }

  lemma {:induction false} SkipOver(ws: string, rest: string)
    requires AllSpace(ws) && (rest == "" || !IsSpace(rest[0]))
    ensures SkipSpace(ws + rest) == rest
  {
    if ws == "" {
      assert ws + rest == rest;
    } else {
      assert (ws + rest)[1..] == ws[1..] + rest;
      SkipOver(ws[1..], rest);
    }
  }

  lemma SkipAll(ws: string)
    requires AllSpace(ws)
    ensures SkipSpace(ws) == ""
  {
    SkipOver(ws, "");
    assert ws + "" == ws;
  }

  lemma {:induction false} Skipped(s: string) returns (ws: string)
    ensures s == ws + SkipSpace(s) && AllSpace(ws)
  {
    if s != "" && IsSpace(s[0]) {
      var rest := Skipped(s[1..]);
      ws := [s[0]] + rest;
    } else {
      ws := "";
    }
  }

  lemma CommitTextShape(s: string) returns (a: string, w: string, b: string, c: string, d: string)
    requires IsCommitText(s)
    ensures CommitShape(s, a, w, b, c, d)
  {
    a := Skipped(s);
    var t := SkipSpace(s);
    w := t[..6];
    b := Skipped(t[6..]);
    var u := SkipSpace(t[6..]);
    assert t == w + t[6..];
    if u == "" {
      c, d := "", "";
    } else {
      c := ";";
      d := Skipped(u[1..]);
      assert u == ";" + u[1..];
      assert u[1..] == d + "";
    }
    assert u == c + d;
  }

  lemma ShapeIsCommitText(s: string, a: string, w: string, b: string, c: string, d: string)
    requires CommitShape(s, a, w, b, c, d)
    ensures IsCommitText(s)
  {
    var tail := b + (c + d);
    var body := w + tail;
    assert body[..6] == w && body[6..] == tail;
    assert body[0] == w[0];
    SkipOver(a, body);
    if c == "" {
      assert tail == b + d;
      SkipAll(tail);
    } else {
      assert (c + d)[0] == ';' && (c + d)[1..] == d;
      SkipOver(b, c + d);
      SkipAll(d);
    }
  }

  /** The matcher accepts exactly the texts of the pattern's shape. */
  lemma CommitTextIsPattern(s: string)
    ensures IsCommitText(s) <==> exists a, w, b, c, d :: CommitShape(s, a, w, b, c, d)
  {
    if IsCommitText(s) {
      var a, w, b, c, d := CommitTextShape(s);
    }
    forall a, w, b, c, d | CommitShape(s, a, w, b, c, d) ensures IsCommitText(s) {
      ShapeIsCommitText(s, a, w, b, c, d);
    }
  }
}
