/** Python's `str.split()` with no arguments: the text is cut at runs of
    whitespace, and leading and trailing whitespace yields no empty pieces.
    The whitespace predicate is the ASCII part of Python's. */
module Tokenizer {

  /** Space, the tab, line feed, vertical tab, form feed and carriage return
      (9 to 13), and the file, group, record and unit separators (28 to 31). */
  predicate IsSpace(ch: char) {
    ch == ' ' || 9 <= ch as int <= 13 || 28 <= ch as int <= 31
  }

  predicate IsToken(t: string) {
    t != [] && forall i :: 0 <= i < |t| ==> !IsSpace(t[i])
  }

  ghost predicate AllSpace(s: string) {
    forall i :: 0 <= i < |s| ==> IsSpace(s[i])
  }

  /** The length of the longest prefix of `s` that holds no whitespace. */
  function WordLength(s: string): (n: nat)
    ensures n <= |s|
    ensures forall i :: 0 <= i < n ==> !IsSpace(s[i])
    ensures n < |s| ==> IsSpace(s[n])
  {
    if s == [] || IsSpace(s[0]) then 0 else 1 + WordLength(s[1..])
  }

  /** `s.split()` */
  function Split(s: string): (tokens: seq<string>)
    ensures forall i :: 0 <= i < |tokens| ==> IsToken(tokens[i])
    ensures tokens == [] <==> AllSpace(s)
    decreases |s|
  {
    if s == [] then []
    else if IsSpace(s[0]) then
      var rest := Split(s[1..]);
      assert AllSpace(s) <==> AllSpace(s[1..]) by {
        assert forall i :: 0 < i < |s| ==> s[i] == s[1..][i - 1];
      }
      rest
    else
      var n := WordLength(s);
      [s[..n]] + Split(s[n..])
  }

  /** The tokens glued back together with one space between neighbours. */
  function Join(tokens: seq<string>): string {
    if tokens == [] then ""
    else if |tokens| == 1 then tokens[0]
    else tokens[0] + " " + Join(tokens[1..])
  }

  /** The text with every whitespace character removed. */
  function Squeeze(s: string): string {
    if s == [] then ""
    else (if IsSpace(s[0]) then "" else [s[0]]) + Squeeze(s[1..])
  }

  /** The tokens one after the other. */
  function Concat(tokens: seq<string>): string {
    if tokens == [] then "" else tokens[0] + Concat(tokens[1..])
  }

  /** Separators that can stand between tokens: each is all whitespace, and
      each one between two tokens holds at least one character. */
  ghost predicate Separators(seps: seq<string>) {
    && (forall k :: 0 <= k < |seps| ==> AllSpace(seps[k]))
    && forall k :: 0 < k < |seps| - 1 ==> seps[k] != []
  }

  /** `seps[0] + tokens[0] + seps[1] + ... + tokens[n-1] + seps[n]` */
  function Interleave(seps: seq<string>, tokens: seq<string>): string
    requires |seps| == |tokens| + 1
    decreases |tokens|
  {
    if tokens == [] then seps[0] else seps[0] + tokens[0] + Interleave(seps[1..], tokens[1..])
  }

  /** The whitespace runs of `s`: the leading one, those between the tokens
      of `Split(s)`, and the trailing one, each possibly empty at the ends. */
  function Gaps(s: string): (seps: seq<string>)
    ensures |seps| == |Split(s)| + 1
    ensures Separators(seps)
    ensures s != [] && IsSpace(s[0]) ==> seps[0] != []
    decreases |s|
  {
    if s == [] then [""]
    else if IsSpace(s[0]) then
      var g := Gaps(s[1..]);
      assert forall k :: 0 <= k < |g| ==> AllSpace(g[k]);
      [[s[0]] + g[0]] + g[1..]
    else
      var n := WordLength(s);
      var g := Gaps(s[n..]);
      assert |Split(s)| == 1 + |Split(s[n..])|;
      assert |g| > 1 ==> g[0] != [] by {
        if |g| > 1 {
          assert !AllSpace(s[n..]);
        }
      }
      [""] + g
  }

  lemma {:induction false} WordLengthOfToken(t: string, rest: string)
    requires forall i :: 0 <= i < |t| ==> !IsSpace(t[i])
    requires rest == [] || IsSpace(rest[0])
    ensures WordLength(t + rest) == |t|
  {
    if t != [] {
      assert (t + rest)[1..] == t[1..] + rest;
      WordLengthOfToken(t[1..], rest);
    }
  }

  /** Splitting undoes joining with single spaces. */
  lemma {:induction false} SplitJoin(tokens: seq<string>)
    requires forall i :: 0 <= i < |tokens| ==> IsToken(tokens[i])
    ensures Split(Join(tokens)) == tokens
  {
    if tokens == [] {
    } else if |tokens| == 1 {
      var t := tokens[0];
      WordLengthOfToken(t, "");
      assert t[..|t|] == t && t[|t|..] == "";
    } else {
      var t, rest := tokens[0], Join(tokens[1..]);
      var s := t + " " + rest;
      assert s == t + (" " + rest);
      WordLengthOfToken(t, " " + rest);
      assert s[..|t|] == t;
      assert s[|t|..] == " " + rest;
      assert (" " + rest)[1..] == rest;
      SplitJoin(tokens[1..]);
      assert Split(s) == [t] + tokens[1..];
    }
  }

  /** Leading whitespace does not change the tokens. */
  lemma {:induction false} SplitSkipsSpace(w: string, s: string)
    requires AllSpace(w)
    ensures Split(w + s) == Split(s)
    decreases |w|
  {
    if w != [] {
      assert (w + s)[0] == w[0] && IsSpace(w[0]);
      assert (w + s)[1..] == w[1..] + s;
      assert AllSpace(w[1..]) by {
        assert forall i :: 0 <= i < |w| - 1 ==> w[1..][i] == w[i + 1];
      }
      SplitSkipsSpace(w[1..], s);
    } else {
      assert w + s == s;
    }
  }

  /** A token followed by the end of the text or by whitespace is the first token. */
  lemma SplitToken(t: string, rest: string)
    requires IsToken(t) && (rest == [] || IsSpace(rest[0]))
    ensures Split(t + rest) == [t] + Split(rest)
  {
    WordLengthOfToken(t, rest);
    assert (t + rest)[..|t|] == t && (t + rest)[|t|..] == rest;
  }

  /** One separator and one token taken off the front. */
  lemma InterleaveCons(sep: string, t: string, seps: seq<string>, tokens: seq<string>)
    requires |seps| == |tokens| + 1
    ensures Interleave([sep] + seps, [t] + tokens) == sep + (t + Interleave(seps, tokens))
  {
    assert ([sep] + seps)[1..] == seps && ([t] + tokens)[1..] == tokens;
  }

  /** The separators after the first two still qualify, and the one after the
      first token starts with whitespace unless it is the last. */
  lemma SeparatorsTail(seps: seq<string>, tokens: seq<string>)
    requires |seps| == |tokens| + 1 && Separators(seps) && tokens != []
    ensures Separators(seps[1..])
    ensures var rest := Interleave(seps[1..], tokens[1..]); rest == [] || IsSpace(rest[0])
  {
    assert forall k :: 0 <= k < |seps| - 1 ==> seps[1..][k] == seps[k + 1];
    if |tokens| > 1 {
      assert seps[1] != [] && AllSpace(seps[1]);
    }
  }

  /** Splitting undoes interleaving with whitespace separators, however long
      each separator is: the text is cut at every whitespace run. */
  lemma {:induction false} SplitInterleave(seps: seq<string>, tokens: seq<string>)
    requires |seps| == |tokens| + 1 && Separators(seps)
    requires forall i :: 0 <= i < |tokens| ==> IsToken(tokens[i])
    ensures Split(Interleave(seps, tokens)) == tokens
    decreases |tokens|
  {
    if tokens != [] {
      var t, rest := tokens[0], Interleave(seps[1..], tokens[1..]);
      SeparatorsTail(seps, tokens);
      SplitInterleave(seps[1..], tokens[1..]);
      InterleaveCons(seps[0], t, seps[1..], tokens[1..]);
      assert [seps[0]] + seps[1..] == seps && [t] + tokens[1..] == tokens;
      SplitSkipsSpace(seps[0], t + rest);
      SplitToken(t, rest);
    }
  }

  /** Interleaving the tokens with the gaps gives back the text. */
  lemma {:induction false} InterleaveGaps(s: string)
    ensures Interleave(Gaps(s), Split(s)) == s
    decreases |s|
  {
    if s == [] {
    } else if IsSpace(s[0]) {
      InterleaveGaps(s[1..]);
      InterleaveWiden([s[0]], Gaps(s[1..]), Split(s[1..]));
      assert s == [s[0]] + s[1..];
    } else {
      var n := WordLength(s);
      InterleaveGaps(s[n..]);
      InterleaveCons("", s[..n], Gaps(s[n..]), Split(s[n..]));
      assert s == s[..n] + s[n..];
    }
  }

  /** Widening the leading separator prefixes the text. */
  lemma InterleaveWiden(w: string, seps: seq<string>, tokens: seq<string>)
    requires |seps| == |tokens| + 1
    ensures Interleave([w + seps[0]] + seps[1..], tokens) == w + Interleave(seps, tokens)
  {
    var seps' := [w + seps[0]] + seps[1..];
    assert seps'[1..] == seps[1..];
  }

  lemma {:induction false} SqueezeAppend(a: string, b: string)
    ensures Squeeze(a + b) == Squeeze(a) + Squeeze(b)
  {
    if a == [] {
      assert a + b == b;
    } else {
      assert (a + b)[1..] == a[1..] + b;
      SqueezeAppend(a[1..], b);
    }
  }

  lemma {:induction false} SqueezeOfWord(t: string)
    requires forall i :: 0 <= i < |t| ==> !IsSpace(t[i])
    ensures Squeeze(t) == t
  {
    if t != [] {
      SqueezeOfWord(t[1..]);
    }
  }

  /** The tokens hold exactly the non-whitespace characters of the text, in order. */
  lemma {:induction false} SplitKeepsNonSpace(s: string)
    ensures Concat(Split(s)) == Squeeze(s)
    decreases |s|
  {
    if s == [] {
    } else if IsSpace(s[0]) {
      SplitKeepsNonSpace(s[1..]);
    } else {
      var n := WordLength(s);
      assert s == s[..n] + s[n..];
      SqueezeAppend(s[..n], s[n..]);
      SqueezeOfWord(s[..n]);
      SplitKeepsNonSpace(s[n..]);
      assert ([s[..n]] + Split(s[n..]))[1..] == Split(s[n..]);
    }
  }
}
