/**
 * String helpers the modes use: JavaScript whitespace, the token count of
 * `s.trim().split(/\s+/).filter(Boolean)`, `trim()`, `join(sep)`, and the
 * reply of the random-word service.
 */
module Text {

  /**
   * JavaScript whitespace (what `\s` and `trim` strip): the WhiteSpace and
   * LineTerminator code points of section 12.2 and 12.3 of ECMA-262.
   */
  function IsSpace(c: char): (b: bool)
    ensures c == ' ' || c == '\t' || c == '\n' || c == '\r' ==> b
    ensures ('0' <= c <= '9') || ('a' <= c <= 'z') || ('A' <= c <= 'Z') ==> !b
  {
    || c == '\t' || c == '\n' || c == '\U{0B}' || c == '\U{0C}' || c == '\r' || c == ' '
    || c == '\U{A0}' || c == '\U{1680}' || ('\U{2000}' <= c <= '\U{200A}')
    || c == '\U{2028}' || c == '\U{2029}' || c == '\U{202F}' || c == '\U{205F}'
    || c == '\U{3000}' || c == '\U{FEFF}'
  }

  predicate AllSpace(s: string) {
    forall i :: 0 <= i < |s| ==> IsSpace(s[i])
  }

  predicate NoSpace(s: string) {
    forall i :: 0 <= i < |s| ==> !IsSpace(s[i])
  }

  /** Drops the non-whitespace characters at the front of s. */
  function SkipWord(s: string): (r: string)
    ensures |r| <= |s|
  {
    if s == [] || IsSpace(s[0]) then s else SkipWord(s[1..])
  }

  /** What `SkipWord` leaves is the suffix after a run without whitespace, and it starts at whitespace. */
  lemma {:induction false} SkipWordSuffix(s: string)
    ensures var r := SkipWord(s);
      && r == s[|s| - |r|..]
      && (r == [] || IsSpace(r[0]))
      && NoSpace(s[..|s| - |r|])
  {
    if s != [] && !IsSpace(s[0]) {
      SkipWordSuffix(s[1..]);
      var r := SkipWord(s[1..]);
      assert s[..|s| - |r|] == [s[0]] + s[1..][..|s| - 1 - |r|];
    }
  }

  /**
   * The number of maximal runs of non-whitespace characters in s. Runs are
   * separated by whitespace, so there are at most half as many as
   * characters, rounded up.
   */
  function TokenCount(s: string): (r: nat)
    ensures 2 * r <= |s| + 1
    decreases |s|
  {
    if s == [] then 0
    else if IsSpace(s[0]) then TokenCount(s[1..])
    else
      var rest := SkipWord(s[1..]);
      SkipWordSuffix(s[1..]);
      if rest != [] then (assert TokenCount(rest) == TokenCount(rest[1..]); 1 + TokenCount(rest))
      else 1 + TokenCount(rest)
  }

  /** A string has no tokens exactly when it is all whitespace. */
  lemma {:induction false} TokenCountZero(s: string)
    ensures TokenCount(s) == 0 <==> AllSpace(s)
    decreases |s|
  {
    if s != [] {
      if IsSpace(s[0]) {
        TokenCountZero(s[1..]);
        assert AllSpace(s) <==> AllSpace(s[1..]) by {
          if AllSpace(s[1..]) {
            forall i | 0 <= i < |s| ensures IsSpace(s[i]) {
              if i > 0 { assert s[i] == s[1..][i - 1]; }
            }
          }
        }
      }
    }
  }

  /** `ws.join(sep)`. */
  function Join(ws: seq<string>, sep: string): string {
    if |ws| == 0 then ""
    else if |ws| == 1 then ws[0]
    else ws[0] + sep + Join(ws[1..], sep)
  }

  /** The combined length of the words. */
  function TotalLength(ws: seq<string>): nat {
    if ws == [] then 0 else |ws[0]| + TotalLength(ws[1..])
  }

  /** A joined text holds every word's characters and one separator between each two words. */
  lemma {:induction false} JoinLength(ws: seq<string>, sep: string)
    requires |ws| > 0
    ensures |Join(ws, sep)| == TotalLength(ws) + (|ws| - 1) * |sep|
  {
    if |ws| == 1 {
      assert ws[1..] == [];
    } else {
      JoinLength(ws[1..], sep);
    }
  }

  /** A word followed by nothing or by whitespace adds exactly one token. */
  lemma WordThenRest(w: string, rest: string)
    requires w != [] && NoSpace(w)
    requires rest == [] || IsSpace(rest[0])
    ensures TokenCount(w + rest) == 1 + TokenCount(rest)
  {
    var s := w + rest;
    assert s[1..] == w[1..] + rest;
    SkipWordOver(w[1..], rest);
  }

  lemma {:induction false} SkipWordOver(w: string, rest: string)
    requires NoSpace(w)
    requires rest == [] || IsSpace(rest[0])
    ensures SkipWord(w + rest) == rest
    decreases |w|
  {
    if w == [] {
      assert w + rest == rest;
    } else {
      assert (w + rest)[1..] == w[1..] + rest;
      SkipWordOver(w[1..], rest);
    }
  }

  /**
   * Joining words that are non-empty and free of whitespace with single spaces
   * yields a text with exactly one token per word.
   */
  lemma {:induction false} TokenCountJoin(ws: seq<string>)
    requires forall k :: 0 <= k < |ws| ==> ws[k] != [] && NoSpace(ws[k])
    ensures TokenCount(Join(ws, " ")) == |ws|
  {
    if |ws| == 1 {
      assert ws[0] + [] == ws[0];
      WordThenRest(ws[0], []);
    } else if |ws| > 1 {
      var tail := Join(ws[1..], " ");
      TokenCountJoin(ws[1..]);
      assert ws[0] + " " + tail == ws[0] + (" " + tail);
      WordThenRest(ws[0], " " + tail);
      assert (" " + tail)[1..] == tail;
    }
  }

  /** `s.trimStart()`: drops leading whitespace. */
  function TrimStart(s: string): string {
    if s != [] && IsSpace(s[0]) then TrimStart(s[1..]) else s
  }

  /** `s.trimEnd()`: drops trailing whitespace. */
  function TrimEnd(s: string): string {
    if s != [] && IsSpace(s[|s| - 1]) then TrimEnd(s[..|s| - 1]) else s
  }

  /** What `trimStart` leaves is a suffix after whitespace, and it does not start with whitespace. */
  lemma {:induction false} TrimStartSuffix(s: string)
    ensures var r := TrimStart(s);
      && |r| <= |s| && r == s[|s| - |r|..]
      && AllSpace(s[..|s| - |r|])
      && (r == [] || !IsSpace(r[0]))
  {
    if s != [] && IsSpace(s[0]) {
      TrimStartSuffix(s[1..]);
      var r := TrimStart(s[1..]);
      assert s[..|s| - |r|] == [s[0]] + s[1..][..|s| - 1 - |r|];
    }
  }

  /** What `trimEnd` leaves is a prefix before whitespace, and it does not end with whitespace. */
  lemma {:induction false} TrimEndPrefix(s: string)
    ensures var r := TrimEnd(s);
      && |r| <= |s| && r == s[..|r|]
      && AllSpace(s[|r|..])
      && (r == [] || !IsSpace(r[|r| - 1]))
  {
    if s != [] && IsSpace(s[|s| - 1]) {
      TrimEndPrefix(s[..|s| - 1]);
      var r := TrimEnd(s[..|s| - 1]);
      assert s[|r|..] == s[..|s| - 1][|r|..] + [s[|s| - 1]];
    }
  }

  /**
   * `s.trim()`: the slice of s left after removing whitespace at both ends;
   * it is empty exactly when s is all whitespace.
   */
  function Trim(s: string): (r: string)
    ensures exists i, j :: 0 <= i <= j <= |s| && r == s[i..j] && AllSpace(s[..i]) && AllSpace(s[j..])
    ensures r == [] || (!IsSpace(r[0]) && !IsSpace(r[|r| - 1]))
    ensures r == [] <==> AllSpace(s)
  {
    TrimSlice(s);
    TrimEnd(TrimStart(s))
  }

  lemma {:induction false} TrimSlice(s: string)
    ensures var t := TrimStart(s); var r := TrimEnd(t); var i := |s| - |t|;
      && |t| <= |s| && |r| <= |t|
      && r == s[i..i + |r|] && AllSpace(s[..i]) && AllSpace(s[i + |r|..])
      && (r == [] <==> AllSpace(s))
      && (r == [] || (!IsSpace(r[0]) && !IsSpace(r[|r| - 1])))
  {
    var t := TrimStart(s);
    var r := TrimEnd(t);
    TrimStartSuffix(s);
    TrimEndPrefix(t);
    TrimParts(s, t, r, |s| - |t|);
    if r != [] {
      assert r[0] == t[0];
    }
  }

  /** How the two halves of a trim fit together, stated on plain slices. */
  lemma TrimParts(s: string, t: string, r: string, i: nat)
    requires i <= |s| && t == s[i..] && |r| <= |t| && r == t[..|r|]
    requires AllSpace(s[..i]) && AllSpace(t[|r|..])
    requires t == [] || !IsSpace(t[0])
    ensures r == s[i..i + |r|] && AllSpace(s[i + |r|..])
    ensures r == [] <==> AllSpace(s)
  {
    assert s[i + |r|..] == t[|r|..];
    if r == [] {
      assert t[|r|..] == t;
      assert s == s[..i] + t;
      AllSpaceConcat(s[..i], t);
    } else if AllSpace(s) {
      assert false;
    }
  }

  lemma AllSpaceConcat(a: string, b: string)
    requires AllSpace(a) && AllSpace(b)
    ensures AllSpace(a + b)
  {
    forall k | 0 <= k < |a + b| ensures IsSpace((a + b)[k]) {
      if k >= |a| { assert (a + b)[k] == b[k - |a|]; }
    }
  }

  /** The reply of the random-word request. */
  datatype WordsReply =
    | NetworkError         // `fetch` or `response.json()` throws
    | NotAnArray           // the body parses to something other than an array
    | Words(items: seq<string>)
}
