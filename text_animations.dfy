/**
 * The text reveal helpers (components/TextAnimations.tsx): ScrollTextReveal splits its text
 * at spaces and gives word `i` of `n` the slice [i/n, (i+1)/n] of the scroll progress;
 * TypewriterText delays character `idx` by `delay + 0.03 * idx` seconds; LineReveal delays
 * line `idx` by `0.15 * idx` seconds.
 */
module TextAnimations {

  // ---------------------------------------------------------------------------
  // Splitting at spaces
  // ---------------------------------------------------------------------------

  function CountChar(s: string, c: char): nat
  {
    if s == [] then 0 else (if s[0] == c then 1 else 0) + CountChar(s[1..], c)
  }

  /** `s.split(sep)` with a one-character separator: the pieces between separators, empty ones included. */
  function Split(s: string, sep: char): (pieces: seq<string>)
    ensures |pieces| == CountChar(s, sep) + 1
    ensures forall k :: 0 <= k < |pieces| ==> sep !in pieces[k]
  {
    if s == [] then [""]
    else
      var rest := Split(s[1..], sep);
      if s[0] == sep then [""] + rest
      else [[s[0]] + rest[0]] + rest[1..]
  }

  /** Pieces glued back together with the separator between them. */
  function Join(pieces: seq<string>, sep: char): string
    requires |pieces| >= 1
  {
    if |pieces| == 1 then pieces[0] else pieces[0] + [sep] + Join(pieces[1..], sep)
  }

  /** Splitting loses nothing: joining the pieces with the separator gives back the text. */
  lemma {:induction false} JoinSplit(s: string, sep: char)
    ensures Join(Split(s, sep), sep) == s
  {
    if s != [] {
      var rest := Split(s[1..], sep);
      JoinSplit(s[1..], sep);
      if s[0] == sep {
        assert Split(s, sep)[1..] == rest;
        assert s == [s[0]] + s[1..];
      } else {
        var pieces := Split(s, sep);
        assert pieces[0] == [s[0]] + rest[0];
        if |rest| == 1 {
          assert pieces == [[s[0]] + rest[0]];
        } else {
          assert pieces[1..] == rest[1..];
          assert Join(pieces, sep) == ([s[0]] + rest[0]) + [sep] + Join(rest[1..], sep);
          assert Join(rest, sep) == rest[0] + [sep] + Join(rest[1..], sep);
        }
        assert s == [s[0]] + s[1..];
      }
    }
  }

  // ---------------------------------------------------------------------------
  // ScrollTextReveal
  // ---------------------------------------------------------------------------

  datatype Range = Range(start: real, end: real)

  /** The progress range of word `i` of `n`: `start = i / n`, `end = start + 1 / n`. */
  function WordRange(i: nat, n: nat): Range
    requires n > 0
  {
    var start := (i as real) / (n as real);
    Range(start, start + 1.0 / (n as real))
  }

  /** Each word's range is `1 / n` wide and runs from `i / n` to `(i + 1) / n`. */
  lemma WordRangeShape(i: nat, n: nat)
    requires n > 0
    ensures WordRange(i, n).end - WordRange(i, n).start == 1.0 / (n as real)
    ensures WordRange(i, n).end == ((i + 1) as real) / (n as real)
  {
    var d := n as real;
    assert (i as real) / d + 1.0 / d == ((i as real) + 1.0) / d;
  }

  /**
   * The ranges tile the progress interval: the first starts at 0, the last ends at 1, each
   * ends where the next starts, and all lie within [0, 1].
   */
  lemma WordRangesTile(n: nat)
    requires n > 0
    ensures WordRange(0, n).start == 0.0
    ensures WordRange(n - 1, n).end == 1.0
    ensures forall i :: 0 <= i < n - 1 ==> WordRange(i, n).end == WordRange(i + 1, n).start
    ensures forall i :: 0 <= i < n ==> 0.0 <= WordRange(i, n).start < WordRange(i, n).end <= 1.0
  {
    var d := n as real;
    WordRangeShape(n - 1, n);
    assert (n as real) / d == 1.0;
    forall i | 0 <= i < n
      ensures WordRange(i, n).end == ((i + 1) as real) / d
      ensures 0.0 <= WordRange(i, n).start < WordRange(i, n).end <= 1.0
    {
      WordRangeShape(i, n);
      DivMonotonic((i + 1) as real, d, d);
    }
  }

  lemma DivMonotonic(a: real, b: real, d: real)
    requires d > 0.0 && a <= b
    ensures a / d <= b / d
  {
    assert (b / d - a / d) * d == b - a;
  }

  /** A word and the progress range over which it fades in. */
  datatype RevealedWord = RevealedWord(word: string, range: Range)

  /** ScrollTextReveal's words: the text split at spaces, each with its range. */
  function ScrollTextReveal(text: string): (words: seq<RevealedWord>)
    ensures |words| == CountChar(text, ' ') + 1
    ensures forall i :: 0 <= i < |words| ==>
      words[i].word == Split(text, ' ')[i] && words[i].range == WordRange(i, |words|) && ' ' !in words[i].word
  {
    var pieces := Split(text, ' ');
    seq(|pieces|, i requires 0 <= i < |pieces| => RevealedWord(pieces[i], WordRange(i, |pieces|)))
  }

  // ---------------------------------------------------------------------------
  // TypewriterText and LineReveal
  // ---------------------------------------------------------------------------

  const CharStagger: real := 0.03
  const LineStagger: real := 0.15

  datatype WhiteSpace = Pre | Normal

  /** One animated character: the letter, its start delay and its CSS `white-space`. */
  datatype TypedChar = TypedChar(ch: char, delay: real, whiteSpace: WhiteSpace)

  /** `text.split('').map(...)`: one entry per character. */
  function Typewriter(text: string, delay: real): seq<TypedChar>
  {
    seq(|text|, idx requires 0 <= idx < |text| =>
      TypedChar(text[idx], delay + (idx as real) * CharStagger, if text[idx] == ' ' then Pre else Normal))
  }

  /**
   * There is one entry per character, in order; the first starts after `delay`, each later one
   * strictly after the one before; spaces keep their width with `pre` and every other character is `normal`.
   */
  lemma TypewriterShape(text: string, delay: real)
    ensures |Typewriter(text, delay)| == |text|
    ensures forall idx :: 0 <= idx < |text| ==> Typewriter(text, delay)[idx].ch == text[idx]
    ensures |text| > 0 ==> Typewriter(text, delay)[0].delay == delay
    ensures forall i, j :: 0 <= i < j < |text| ==> Typewriter(text, delay)[i].delay < Typewriter(text, delay)[j].delay
    ensures forall idx :: 0 <= idx < |text| ==>
      (Typewriter(text, delay)[idx].whiteSpace == Pre <==> text[idx] == ' ')
  {
  }

  /** LineReveal's per-line delays. */
  function LineDelays(lines: seq<string>): seq<real>
  {
    seq(|lines|, idx requires 0 <= idx < |lines| => (idx as real) * LineStagger)
  }

  /** The first line starts at once and each later line strictly after the one before. */
  lemma LineDelaysShape(lines: seq<string>)
    ensures |LineDelays(lines)| == |lines|
    ensures |lines| > 0 ==> LineDelays(lines)[0] == 0.0
    ensures forall i, j :: 0 <= i < j < |lines| ==> LineDelays(lines)[i] < LineDelays(lines)[j]
  {
  }
}
