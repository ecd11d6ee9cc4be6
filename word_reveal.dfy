/**
 * The word-by-word text reveal of the hero tagline and the gallery title:
 * text becomes one span per space-separated word with alternating
 * direction and colour, words enter on a staggered, uneven schedule and
 * exit on a fast linear one. The timers themselves are not modelled, only
 * the delays they are scheduled with.
 */
module WordReveal {

  /** `text.split(' ')`: the pieces between single spaces, empty pieces included. */
  function Split(s: string): (r: seq<string>)
    ensures |r| >= 1
    ensures forall i :: 0 <= i < |r| ==> ' ' !in r[i]
  {
    if |s| == 0 then [""]
    else
      var rest := Split(s[1..]);
      if s[0] == ' ' then [""] + rest
      else [[s[0]] + rest[0]] + rest[1..]
  }

  /** `words.join(' ')`. */
  function Join(words: seq<string>): (r: string)
    requires |words| >= 1
    ensures words[0] <= r
    ensures |words| > 1 ==> ' ' in r
    ensures |r| >= |words| - 1
  {
    if |words| == 1 then words[0] else words[0] + " " + Join(words[1..])
  }

  /** Joining the pieces of a split with single spaces gives back the text. */
  lemma {:induction false} JoinSplit(s: string)
    ensures Join(Split(s)) == s
  {
    if |s| > 0 {
      JoinSplit(s[1..]);
      var rest := Split(s[1..]);
      if s[0] == ' ' {
        assert Split(s) == [""] + rest;
        assert Join(Split(s)) == "" + " " + Join(rest);
        assert s == [s[0]] + s[1..];
      } else {
        var r := Split(s);
        assert r == [[s[0]] + rest[0]] + rest[1..];
        if |rest| == 1 {
          assert Join(r) == [s[0]] + rest[0];
        } else {
          assert r[1..] == rest[1..];
          assert Join(r) == [s[0]] + rest[0] + " " + Join(rest[1..]);
          assert Join(rest) == rest[0] + " " + Join(rest[1..]);
        }
        assert s == [s[0]] + s[1..];
      }
    }
  }

  /** A piece without spaces splits into itself. */
  lemma {:induction false} SplitWord(w: string)
    requires ' ' !in w
    ensures Split(w) == [w]
  {
    if |w| > 0 {
      assert ' ' !in w[1..] by {
        forall k | 0 <= k < |w[1..]| ensures w[1..][k] != ' ' {
          assert w[1..][k] == w[k + 1];
        }
      }
      SplitWord(w[1..]);
      assert w == [w[0]] + w[1..];
    }
  }

  /** A word followed by a space and more text splits into that word and the split of the rest. */
  lemma {:induction false} SplitAfterWord(w: string, rest: string)
    requires ' ' !in w
    ensures Split(w + " " + rest) == [w] + Split(rest)
  {
    if |w| == 0 {
      assert w + " " + rest == [' '] + rest;
      assert (w + " " + rest)[1..] == rest;
    } else {
      var s := w + " " + rest;
      assert s[0] == w[0];
      assert s[1..] == w[1..] + " " + rest;
      assert ' ' !in w[1..] by {
        forall k | 0 <= k < |w[1..]| ensures w[1..][k] != ' ' {
          assert w[1..][k] == w[k + 1];
        }
      }
      SplitAfterWord(w[1..], rest);
      assert w == [w[0]] + w[1..];
    }
  }

  /** Splitting words joined by single spaces gives back the words, provided none contains a space. */
  lemma {:induction false} SplitJoin(words: seq<string>)
    requires |words| >= 1
    requires forall i :: 0 <= i < |words| ==> ' ' !in words[i]
    ensures Split(Join(words)) == words
  {
    if |words| == 1 {
      SplitWord(words[0]);
    } else {
      SplitJoin(words[1..]);
      SplitAfterWord(words[0], Join(words[1..]));
      assert words == [words[0]] + words[1..];
    }
  }

  datatype Direction = FromTop | FromBottom
  datatype Colour = Brown | White

  /** One `<span class="word ...">` of the wrapped text. */
  datatype WordSpan = WordSpan(word: string, direction: Direction, colour: Colour)

  /**
   * `wrapWords(element, text)`: one span per piece of `text.split(' ')`;
   * even-numbered words come from the top in brown, odd ones from the
   * bottom in white, so neighbours always differ.
   */
  function WrapWords(text: string): (r: seq<WordSpan>)
    ensures |r| == |Split(text)|
    ensures forall i :: 0 <= i < |r| ==> r[i].word == Split(text)[i]
    ensures forall i :: 0 <= i < |r| ==>
      (r[i].direction == FromTop <==> i % 2 == 0) && (r[i].colour == Brown <==> i % 2 == 0)
  {
    var words := Split(text);
    seq(|words|, i requires 0 <= i < |words| =>
      WordSpan(words[i],
               if i % 2 == 0 then FromTop else FromBottom,
               if i % 2 == 0 then Brown else White))
  }

  /** Neighbouring words always differ in direction and in colour. */
  lemma WrapAlternates(text: string, i: nat)
    requires i + 1 < |WrapWords(text)|
    ensures var r := WrapWords(text);
      r[i].direction != r[i + 1].direction && r[i].colour != r[i + 1].colour
  {
    assert i % 2 == 0 <==> (i + 1) % 2 != 0;
  }

  /** The words of a list of spans. */
  function Words(spans: seq<WordSpan>): (r: seq<string>)
    ensures |r| == |spans|
    ensures forall i :: 0 <= i < |spans| ==> r[i] == spans[i].word
  {
    seq(|spans|, i requires 0 <= i < |spans| => spans[i].word)
  }

  /** The spans, joined by single spaces as `innerHTML` joins them, spell out the original text. */
  lemma WrappedTextReadsBack(text: string)
    ensures |WrapWords(text)| >= 1
    ensures Join(Words(WrapWords(text))) == text
  {
    assert Words(WrapWords(text)) == Split(text);
    JoinSplit(text);
  }

  /** `delayIntervals` of `animateWords`: the gap after word `i` is entry `i mod 8`. */
  const DelayIntervals: seq<nat> := [180, 200, 160, 190, 170, 210, 150, 180]

  /** The sum of the gaps before word `i`: nothing before the first word, something before every later one. */
  function IntervalSum(i: nat): (r: nat)
    ensures r == 0 <==> i == 0
  {
    if i == 0 then 0 else IntervalSum(i - 1) + DelayIntervals[(i - 1) % |DelayIntervals|]
  }

  /** Each gap is between 150 and 210 ms, so the sum before word `i` lies between 150 i and 210 i. */
  lemma {:induction false} IntervalSumBounds(i: nat)
    ensures 150 * i <= IntervalSum(i) <= 210 * i
  {
    if i > 0 {
      IntervalSumBounds(i - 1);
      assert 150 <= DelayIntervals[(i - 1) % 8] <= 210;
    }
  }

  /** Later words start strictly later: at least 150 ms per word in between. */
  lemma {:induction false} IntervalSumGrows(i: nat, j: nat)
    requires i <= j
    ensures IntervalSum(j) - IntervalSum(i) >= 150 * (j - i)
  {
    if i < j {
      IntervalSumGrows(i, j - 1);
      assert DelayIntervals[(j - 1) % 8] >= 150;
    }
  }

  /** The first eight gaps add up to 1440 ms. */
  lemma FirstCycle()
    ensures IntervalSum(8) == 1440
  {
    assert IntervalSum(1) == 180;
    assert IntervalSum(2) == 380;
    assert IntervalSum(3) == 540;
    assert IntervalSum(4) == 730;
    assert IntervalSum(5) == 900;
    assert IntervalSum(6) == 1110;
    assert IntervalSum(7) == 1260;
  }

  /** The gap after word `i + 8` is the gap after word `i`. */
  lemma GapRepeats(i: nat)
    ensures IntervalSum(i + 9) - IntervalSum(i + 8) == IntervalSum(i + 1) - IntervalSum(i)
  {
    assert (i + 8) % 8 == i % 8;
  }

  /** The schedule repeats every eight words, which together take 1440 ms. */
  lemma {:induction false} IntervalSumPeriod(i: nat)
    ensures IntervalSum(i + 8) == IntervalSum(i) + 1440
  {
    if i == 0 {
      FirstCycle();
    } else {
      IntervalSumPeriod(i - 1);
      GapRepeats(i - 1);
    }
  }

  /**
   * `animateWords(element, startDelay)`: walks the words, scheduling word
   * `i` at the running `cumulativeDelay` and then adding its gap. The
   * result lists the scheduled delays, in word order.
   */
  method AnimateWords(wordCount: nat, startDelay: int) returns (delays: seq<int>)
    ensures |delays| == wordCount
    ensures forall i :: 0 <= i < wordCount ==> delays[i] == startDelay + IntervalSum(i)
    ensures forall i, j :: 0 <= i < j < wordCount ==> delays[j] - delays[i] >= 150 * (j - i)
  {
    delays := [];
    var cumulativeDelay := startDelay;
    var index := 0;
    while index < wordCount
      invariant 0 <= index <= wordCount
      invariant |delays| == index
      invariant cumulativeDelay == startDelay + IntervalSum(index)
      invariant forall i {:trigger delays[i]} :: 0 <= i < index ==> delays[i] == startDelay + IntervalSum(i)
    {
      var interval := DelayIntervals[index % |DelayIntervals|];
      assert IntervalSum(index + 1) == IntervalSum(index) + interval;
      delays := delays + [cumulativeDelay];
      cumulativeDelay := cumulativeDelay + interval;
      index := index + 1;
    }
    forall i, j | 0 <= i < j < wordCount ensures delays[j] - delays[i] >= 150 * (j - i) {
      IntervalSumGrows(i, j);
    }
  }

  /** `exitWords(element)`: word `i` leaves `i * 50` ms after the call. */
  function ExitDelays(wordCount: nat): (r: seq<nat>)
    ensures |r| == wordCount
    ensures wordCount > 0 ==> r[0] == 0
    ensures forall i :: 0 <= i < wordCount - 1 ==> r[i + 1] == r[i] + 50
  {
    seq(wordCount, i => i * 50)
  }

  /** The exit cascade is faster than the entrance: with a non-negative start delay, as every caller passes, each word after the first leaves sooner after the call than it entered. */
  lemma ExitOutpacesEntrance(wordCount: nat, startDelay: nat, i: nat)
    requires 1 <= i < wordCount
    ensures ExitDelays(wordCount)[i] < startDelay + IntervalSum(i)
  {
    IntervalSumBounds(i);
  }
}
