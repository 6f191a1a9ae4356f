/** The string helpers of the mobile client that turn typed text into stored values and
    pet names into avatar initials. */
module Names {
  import opened Wrappers
  import opened JsString

  /** `normalizeStringOrNull`: the trimmed text, or `null` when nothing but whitespace was typed. */
  function NormalizeStringOrNull(v: string): (r: Option<string>)
    ensures r == None <==> AllWhitespace(v)
    ensures r.Some? ==> r.value == Trim(v) && r.value != []
    ensures r.Some? ==> !IsWhitespace(r.value[0]) && !IsWhitespace(r.value[|r.value| - 1])
  {
    var t := Trim(v);
    if |t| > 0 then Some(t) else None
  }

  /** Normalising an already normalised value changes nothing. */
  lemma {:induction false} NormalizeIdempotent(v: string)
    requires NormalizeStringOrNull(v).Some?
    ensures NormalizeStringOrNull(NormalizeStringOrNull(v).value) == NormalizeStringOrNull(v)
  {
    TrimOfTrimmed(Trim(v));
  }

  /** The length of the run of non-whitespace characters at the front of `s`. */
  function WordLength(s: string): (n: nat)
    ensures n <= |s|
    ensures forall k :: 0 <= k < n ==> !IsWhitespace(s[k])
    ensures n < |s| ==> IsWhitespace(s[n])
  {
    if s == [] || IsWhitespace(s[0]) then 0
    else
      var n := 1 + WordLength(s[1..]);
      assert forall k :: 1 <= k < n ==> s[k] == s[1..][k - 1];
      n
  }

  predicate IsWord(w: string) {
    w != [] && forall k :: 0 <= k < |w| ==> !IsWhitespace(w[k])
  }

  /** `s` holds a non-whitespace character. */
  predicate HasWord(s: string) {
    LeadingWhitespace(s) < |s|
  }

  lemma {:induction false} HasWordIsNotBlank(s: string)
    ensures HasWord(s) <==> !AllWhitespace(s)
  {
  }

  /** The first maximal run of non-whitespace characters. */
  function FirstWordOf(s: string): (w: string)
    requires HasWord(s)
    ensures IsWord(w)
    ensures w[0] == s[LeadingWhitespace(s)]
  {
    var t := s[LeadingWhitespace(s)..];
    assert t[0] == s[LeadingWhitespace(s)];
    t[..WordLength(t)]
  }

  /** What follows the first word: empty, or starting with whitespace. */
  function AfterFirstWord(s: string): (rest: string)
    requires HasWord(s)
    ensures |rest| < |s|
    ensures s == s[..LeadingWhitespace(s)] + FirstWordOf(s) + rest
    ensures rest != [] ==> IsWhitespace(rest[0])
  {
    var i := LeadingWhitespace(s);
    var t := s[i..];
    assert s == s[..i] + t[..WordLength(t)] + t[WordLength(t)..];
    t[WordLength(t)..]
  }

  /** `s.trim().split(/\s+/).filter(Boolean)`: the maximal runs of non-whitespace
      characters of `s`, in order. */
  function Words(s: string): seq<string>
    decreases |s|
  {
    if HasWord(s) then [FirstWordOf(s)] + Words(AfterFirstWord(s)) else []
  }

  predicate AllWords(ws: seq<string>) {
    forall j :: 0 <= j < |ws| ==> IsWord(ws[j])
  }

  lemma {:induction false} AllWordsCons(w: string, rest: seq<string>)
    requires IsWord(w) && AllWords(rest)
    ensures AllWords([w] + rest)
  {
    assert forall j :: 1 <= j <= |rest| ==> ([w] + rest)[j] == rest[j - 1];
  }

  /** Every word is non-empty and free of whitespace. */
  lemma {:induction false} WordsAreWords(s: string)
    ensures AllWords(Words(s))
    decreases |s|
  {
    if HasWord(s) {
      var rest := AfterFirstWord(s);
      WordsAreWords(rest);
      AllWordsCons(FirstWordOf(s), Words(rest));
    }
  }

  /** A name has no words exactly when it is all whitespace; otherwise its first word
      starts at its first non-whitespace character. */
  lemma {:induction false} FirstWord(s: string)
    ensures Words(s) == [] <==> AllWhitespace(s)
    ensures Words(s) != [] ==> Words(s)[0] != [] && Words(s)[0][0] == s[LeadingWhitespace(s)]
  {
    HasWordIsNotBlank(s);
  }

  /** The non-whitespace characters of `s`, in order. */
  function Visible(s: string): string {
    if s == [] then [] else (if IsWhitespace(s[0]) then [] else [s[0]]) + Visible(s[1..])
  }

  function Concat(ws: seq<string>): string {
    if ws == [] then [] else ws[0] + Concat(ws[1..])
  }

  lemma {:induction false} VisibleAppend(a: string, b: string)
    ensures Visible(a + b) == Visible(a) + Visible(b)
  {
    if a != [] {
      assert (a + b)[1..] == a[1..] + b;
      VisibleAppend(a[1..], b);
    } else {
      assert a + b == b;
    }
  }

  lemma {:induction false} VisibleOfWhitespace(s: string)
    requires AllWhitespace(s)
    ensures Visible(s) == []
  {
    if s != [] {
      VisibleOfWhitespace(s[1..]);
    }
  }

  lemma {:induction false} VisibleOfWord(w: string)
    requires forall k :: 0 <= k < |w| ==> !IsWhitespace(w[k])
    ensures Visible(w) == w
  {
    if w != [] {
      VisibleOfWord(w[1..]);
    }
  }

  /** The words hold exactly the non-whitespace characters of the name, in their order:
      splitting loses and invents nothing but whitespace. */
  lemma {:induction false} WordsKeepVisibleCharacters(s: string)
    ensures Concat(Words(s)) == Visible(s)
    decreases |s|
  {
    if !HasWord(s) {
      HasWordIsNotBlank(s);
      VisibleOfWhitespace(s);
    } else {
      var w := FirstWordOf(s);
      var rest := AfterFirstWord(s);
      WordsKeepVisibleCharacters(rest);
      VisibleAfterWhitespace(s, s[..LeadingWhitespace(s)], w, rest);
      ConcatStep(Words(s), w, Words(rest), Visible(s), Visible(rest));
    }
  }

  lemma {:induction false} ConcatStep(ws: seq<string>, w: string, wsRest: seq<string>, v: string, vRest: string)
    requires ws == [w] + wsRest && Concat(wsRest) == vRest && v == w + vRest
    ensures Concat(ws) == v
  {
    assert ws[1..] == wsRest;
  }

  lemma {:induction false} VisibleAfterWhitespace(s: string, lead: string, w: string, rest: string)
    requires s == lead + w + rest && AllWhitespace(lead)
    requires forall k :: 0 <= k < |w| ==> !IsWhitespace(w[k])
    ensures Visible(s) == w + Visible(rest)
  {
    VisibleAppend(lead + w, rest);
    VisibleAppend(lead, w);
    VisibleOfWhitespace(lead);
    VisibleOfWord(w);
  }

  /** `initialsFromName`: the upper-cased first letters of the first two words, or `'?'`
      for a name with no word in it. */
  function InitialsFromName(name: string): (r: string)
    ensures AllWhitespace(name) ==> r == "?"
    ensures !AllWhitespace(name) ==> 1 <= |r| <= 2 && r[0] == ToUpperChar(name[LeadingWhitespace(name)])
    ensures |r| == 2 <==> |Words(name)| >= 2
    ensures |r| == 2 ==> Words(name)[1] != [] && r[1] == ToUpperChar(Words(name)[1][0])
  {
    WordsAreWords(name);
    FirstWord(name);
    var parts := Words(name);
    var first := if |parts| > 0 then [parts[0][0]] else [];
    var second := if |parts| > 1 then [parts[1][0]] else [];
    var u := ToUpper(first + second);
    if u == [] then "?" else u
  }
}
