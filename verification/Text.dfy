/** Splitting, joining and trimming text, as the webhook and license grammars do. */
module Text {

  /** Which characters count as white space: the four that parser.go trims, or
      those of Go's unicode.IsSpace. */
  datatype Alphabet = Ascii | Unicode

  predicate IsSpace(a: Alphabet, c: char) {
    || c == ' ' || c == '\t' || c == '\n' || c == '\r'
    || (a.Unicode? &&
        (c == '\U{0B}' || c == '\U{0C}' || c == '\U{85}' || c == '\U{A0}' || c == '\U{1680}'
         || '\U{2000}' <= c <= '\U{200A}' || c == '\U{2028}' || c == '\U{2029}' || c == '\U{202F}'
         || c == '\U{205F}' || c == '\U{3000}'))
  }

  function TrimLeft(a: Alphabet, s: string): (r: string) {
    if s != "" && IsSpace(a, s[0]) then TrimLeft(a, s[1..]) else s
  }

  function TrimRight(a: Alphabet, s: string): (r: string) {
    if s != "" && IsSpace(a, s[|s| - 1]) then TrimRight(a, s[..|s| - 1]) else s
  }

  function Trim(a: Alphabet, s: string): (r: string) {
    TrimRight(a, TrimLeft(a, s))
  }

  predicate Trimmed(a: Alphabet, s: string) {
    s == "" || (!IsSpace(a, s[0]) && !IsSpace(a, s[|s| - 1]))
  }

  lemma {:induction false} TrimLeftFacts(a: Alphabet, s: string)
    ensures var r := TrimLeft(a, s); (r == "" || !IsSpace(a, r[0])) && forall c :: c in r ==> c in s
    ensures s != "" && !IsSpace(a, s[|s| - 1]) ==>
              TrimLeft(a, s) != "" && TrimLeft(a, s)[|TrimLeft(a, s)| - 1] == s[|s| - 1]
  {
    if s != "" && IsSpace(a, s[0]) { TrimLeftFacts(a, s[1..]); }
  }

  lemma {:induction false} TrimRightFacts(a: Alphabet, s: string)
    ensures var r := TrimRight(a, s); (r == "" || !IsSpace(a, r[|r| - 1])) && forall c :: c in r ==> c in s
    ensures TrimRight(a, s) != "" ==> TrimRight(a, s)[0] == s[0]
  {
    if s != "" && IsSpace(a, s[|s| - 1]) { TrimRightFacts(a, s[..|s| - 1]); }
  }

  /** Trimming yields trimmed text, adds nothing and keeps trimmed text. */
  lemma TrimFacts(a: Alphabet, s: string)
    ensures Trimmed(a, Trim(a, s)) && forall c :: c in Trim(a, s) ==> c in s
    ensures Trimmed(a, s) ==> Trim(a, s) == s
  {
    TrimLeftFacts(a, s);
    TrimRightFacts(a, TrimLeft(a, s));
  }

  /** The pieces of a text between separators; there is always at least one. */
  function Split(s: string, sep: char): (r: seq<string>)
    ensures r != []
  {
    if s == "" then [""]
    else if s[0] == sep then [""] + Split(s[1..], sep)
    else var r := Split(s[1..], sep); [[s[0]] + r[0]] + r[1..]
  }

  function Join(fs: seq<string>, sep: char): (s: string)
    requires fs != []
  {
    if |fs| == 1 then fs[0] else fs[0] + [sep] + Join(fs[1..], sep)
  }

  /** The first piece ends at the first separator. */
  lemma {:induction false} SplitAt(s: string, sep: char, k: nat)
    requires k <= |s| && sep !in s[..k] && (k < |s| ==> s[k] == sep)
    ensures Split(s, sep) == [s[..k]] + (if k < |s| then Split(s[k + 1..], sep) else [])
  {
    if k > 0 {
      assert s[1..][..k - 1] == s[..k][1..] && s[0] == s[..k][0];
      SplitAt(s[1..], sep, k - 1);
      if k < |s| { assert s[1..][k..] == s[k + 1..]; }
      assert [s[0]] + s[1..][..k - 1] == s[..k];
    } else if s != "" {
      assert s[..0] == "";
    }
  }

  /** No piece holds the separator. */
  lemma {:induction false} SplitFacts(s: string, sep: char)
    ensures forall f :: f in Split(s, sep) ==> sep !in f && forall c :: c in f ==> c in s
  {
    if s != "" {
      SplitFacts(s[1..], sep);
      var r := Split(s[1..], sep);
      assert r[0] in r;
      forall f | f in Split(s, sep) ensures sep !in f && forall c :: c in f ==> c in s {
        assert f == "" || f == [s[0]] + r[0] || f in r;
      }
    }
  }

  /** Splitting inverts joining. */
  lemma {:induction false} SplitJoin(fs: seq<string>, sep: char)
    requires fs != [] && forall i :: 0 <= i < |fs| ==> sep !in fs[i]
    ensures Split(Join(fs, sep), sep) == fs
  {
    var s, k := Join(fs, sep), |fs[0]|;
    assert s[..k] == fs[0];
    SplitAt(s, sep, k);
    if |fs| > 1 {
      assert s[k + 1..] == Join(fs[1..], sep);
      SplitJoin(fs[1..], sep);
      assert fs == [fs[0]] + fs[1..];
    } else {
      assert fs == [fs[0]];
    }
  }
}
