/** The arithmetic of the play screen (Views/GameView.swift): the `m:ss`
    countdown label of `GameHeaderView`, the two star totals the screen
    shows, and the "Perfect Game" test of `GameOverView`. Time is counted
    in tenths of a second, as in the session engine. */
module GameScreen {
  import opened Wrappers
  import opened Text
  import Stars

  /** Swift's `/` on `Int`: the quotient rounded toward zero. */
  function TruncDiv(a: int, b: int): (q: int)
    requires b > 0
    ensures a >= 0 ==> 0 <= a - q * b < b
    ensures a < 0 ==> -b < a - q * b <= 0
  {
    if a >= 0 then a / b else -((-a) / b)
  }

  /** Swift's `%` on `Int`: the remainder takes the sign of the dividend. */
  function TruncRem(a: int, b: int): (r: int)
    requires b > 0
    ensures TruncDiv(a, b) * b + r == a
    ensures a >= 0 ==> 0 <= r < b
    ensures a < 0 ==> -b < r <= 0
  {
    a - TruncDiv(a, b) * b
  }

  /** `Int(timeInterval)` for a time of `tenths` tenths of a second. */
  function WholeSeconds(tenths: int): (s: int)
    ensures tenths >= 0 ==> 0 <= s && s * 10 <= tenths < s * 10 + 10
  {
    TruncDiv(tenths, 10)
  }

  /** The whole minutes of the time left. */
  function Minutes(tenths: int): (m: int)
    ensures tenths >= 0 ==> 0 <= m && m * 600 <= tenths < m * 600 + 600
  {
    TruncDiv(WholeSeconds(tenths), 60)
  }

  /** The whole seconds past the last whole minute. */
  function Seconds(tenths: int): (sec: int)
    ensures tenths >= 0 ==> 0 <= sec < 60 && Minutes(tenths) * 600 + sec * 10 <= tenths
    ensures tenths >= 0 ==> tenths < Minutes(tenths) * 600 + sec * 10 + 10
  {
    TruncRem(WholeSeconds(tenths), 60)
  }

  /** `%02d`: a zero is put in front of a single digit; anything wider
      (a negative number included) prints as `%d` does. */
  function Pad2(n: int): (s: string)
    ensures 0 <= n < 10 ==> s == ['0', DigitChar(n)]
    ensures !(0 <= n < 10) ==> s == IntToString(n)
  {
    if 0 <= n < 10 then ['0', DigitChar(n)] else IntToString(n)
  }

  /** `timeString(from:)`: `"%d:%02d"` of the minutes and seconds. */
  function TimeString(tenths: int): (s: string)
    ensures tenths >= 0 ==> |s| >= 4 && s[|s| - 3] == ':'
    ensures tenths >= 0 ==> forall i :: 0 <= i < |s| && i != |s| - 3 ==> IsDigit(s[i])
  {
    var text := IntToString(Minutes(tenths)) + ":" + Pad2(Seconds(tenths));
    if tenths >= 0 then Pad2TwoDigits(Seconds(tenths)); text else text
  }

  /** The minutes and seconds shown add back up to the whole seconds. */
  lemma TimeFieldsRecompose(tenths: int)
    ensures Minutes(tenths) * 60 + Seconds(tenths) == WholeSeconds(tenths)
    ensures tenths >= 0 ==> 0 <= Seconds(tenths) < 60 && Minutes(tenths) >= 0
  {
  }

  /** A seconds value in 0..59 prints as exactly two digits that read
      back as that value. */
  lemma {:induction false} Pad2TwoDigits(n: int)
    requires 0 <= n < 60
    ensures |Pad2(n)| == 2 && IsDigit(Pad2(n)[0]) && IsDigit(Pad2(n)[1])
    ensures ParseDigits(Pad2(n)) == n
  {
    if n >= 10 {
      var s := Pad2(n);
      assert s == NatToString(n) == NatToString(n / 10) + [DigitChar(n % 10)];
      assert NatToString(n / 10) == [DigitChar(n / 10)];
      ParseNatToString(n);
    } else {
      var s := Pad2(n);
      assert s[..1] == ['0'];
      assert ParseDigits(s[..1]) == 0 by {
        assert s[..1][..0] == [];
      }
    }
  }

  /** Reads an `m:ss` label back into whole seconds; `None` when the text
      is not of that form. */
  function ReadTime(s: string): Option<int> {
    if |s| < 4 || s[|s| - 3] != ':' then None
    else
      var m := s[..|s| - 3];
      var ss := s[|s| - 2..];
      if (forall i :: 0 <= i < |m| ==> IsDigit(m[i])) && IsDigit(ss[0]) && IsDigit(ss[1]) then
        Some(ParseDigits(m) * 60 + ParseDigits(ss))
      else None
  }

  /** For a time that has not run out, the label gives back the whole
      seconds it was made from: two different whole-second values never
      share a label. */
  lemma TimeStringRoundTrip(tenths: int)
    requires tenths >= 0
    ensures ReadTime(TimeString(tenths)) == Some(WholeSeconds(tenths))
  {
    TimeFieldsRecompose(tenths);
    var m := Minutes(tenths);
    var sec := Seconds(tenths);
    Pad2TwoDigits(sec);
    ParseNatToString(m);
    var s := TimeString(tenths);
    assert s == NatToString(m) + ":" + Pad2(sec);
    assert s[..|s| - 3] == NatToString(m);
    assert s[|s| - 2..] == Pad2(sec);
    assert s[|s| - 3] == ':';
  }

  /** `stars.filter { $0.constellationType == t }`, order kept. */
  function OfType(stars: seq<Stars.Star>, t: Stars.ConstellationType): (r: seq<Stars.Star>)
    ensures |r| <= |stars|
  {
    if stars == [] then []
    else (if stars[0].constellationType == t then [stars[0]] else []) + OfType(stars[1..], t)
  }

  /** The filter keeps exactly the stars of type `t`. */
  lemma {:induction false} OfTypeMembers(stars: seq<Stars.Star>, t: Stars.ConstellationType)
    ensures forall x :: x in OfType(stars, t) <==> x in stars && x.constellationType == t
  {
    if stars != [] {
      OfTypeMembers(stars[1..], t);
      assert stars == [stars[0]] + stars[1..];
    }
  }

  /** The filter keeps every star exactly when all are of type `t`. */
  lemma {:induction false} OfTypeKeepsAll(stars: seq<Stars.Star>, t: Stars.ConstellationType)
    ensures |OfType(stars, t)| == |stars| <==> forall i :: 0 <= i < |stars| ==> stars[i].constellationType == t
  {
    if stars != [] {
      OfTypeKeepsAll(stars[1..], t);
      var tail := stars[1..];
      if forall i :: 0 <= i < |tail| ==> tail[i].constellationType == t {
        assert forall i :: 0 < i < |stars| ==> stars[i] == tail[i - 1];
      }
      if forall i :: 0 <= i < |stars| ==> stars[i].constellationType == t {
        assert forall i :: 0 <= i < |tail| ==> tail[i] == stars[i + 1];
      }
    }
  }

  /** Filtering a concatenation filters each part. */
  lemma {:induction false} OfTypeAppend(u: seq<Stars.Star>, v: seq<Stars.Star>, t: Stars.ConstellationType)
    ensures OfType(u + v, t) == OfType(u, t) + OfType(v, t)
  {
    if u == [] {
      assert u + v == v;
    } else {
      var head := if u[0].constellationType == t then [u[0]] else [];
      assert (u + v)[0] == u[0];
      assert (u + v)[1..] == u[1..] + v;
      OfTypeAppend(u[1..], v, t);
      calc {
        OfType(u + v, t);
        head + OfType(u[1..] + v, t);
        head + (OfType(u[1..], t) + OfType(v, t));
        (head + OfType(u[1..], t)) + OfType(v, t);
      }
    }
  }

  /** Taking the star at `j` out of a list takes it out of the multiset
      and out of the count of its type. */
  lemma RemoveAt(b: seq<Stars.Star>, j: nat, t: Stars.ConstellationType)
    requires j < |b|
    ensures multiset(b[..j] + b[j + 1..]) == multiset(b) - multiset{b[j]}
    ensures |OfType(b, t)| == |OfType(b[..j] + b[j + 1..], t)| + if b[j].constellationType == t then 1 else 0
  {
    var front, x, back := b[..j], b[j], b[j + 1..];
    assert b == front + ([x] + back);
    OfTypeAppend(front, [x] + back, t);
    OfTypeAppend(front, back, t);
    assert ([x] + back)[1..] == back;
  }

  /** Reordering the stars does not change how many are of a type. */
  lemma {:induction false} OfTypeCountPermutation(a: seq<Stars.Star>, b: seq<Stars.Star>, t: Stars.ConstellationType)
    requires multiset(a) == multiset(b)
    ensures |OfType(a, t)| == |OfType(b, t)|
    decreases |a|
  {
    if a == [] {
      assert |b| == |multiset(b)| == 0;
    } else {
      var x, rest := a[0], a[1..];
      assert a == [x] + rest;
      assert x in multiset(b);
      var j :| 0 <= j < |b| && b[j] == x;
      RemoveAt(b, j, t);
      OfTypeCountPermutation(rest, b[..j] + b[j + 1..], t);
    }
  }

  /** A list whose first `k` stars are of type `t` and whose others are not
      holds exactly `k` stars of that type. */
  lemma {:induction false} CountOfSplit(s: seq<Stars.Star>, k: nat, t: Stars.ConstellationType)
    requires k <= |s|
    requires forall i :: 0 <= i < |s| ==> (s[i].constellationType == t <==> i < k)
    ensures |OfType(s, t)| == k
  {
    if s != [] {
      var tail := s[1..];
      var k' := if k > 0 then k - 1 else 0;
      assert forall i :: 0 <= i < |tail| ==> tail[i] == s[i + 1];
      CountOfSplit(tail, k', t);
    }
  }

  /** The denominator of the in-game progress line: only the stars of the
      constellation being looked for. */
  function ProgressTotal(stars: seq<Stars.Star>, current: Stars.ConstellationType): (n: nat)
    ensures n <= |stars|
    ensures n == |stars| <==> forall i :: 0 <= i < |stars| ==> stars[i].constellationType == current
  {
    OfTypeKeepsAll(stars, current);
    |OfType(stars, current)|
  }

  /** The denominator of the game-over line: every star on the field. */
  function GameOverTotal(stars: seq<Stars.Star>): (n: nat)
    ensures forall c :: ProgressTotal(stars, c) <= n
    ensures forall c :: ProgressTotal(stars, c) == n <==>
      forall i :: 0 <= i < |stars| ==> stars[i].constellationType == c
  {
    |stars|
  }

  /** "Perfect Game" is shown when every star on the field was matched. */
  predicate PerfectShown(matchedCount: int, stars: seq<Stars.Star>) {
    matchedCount == GameOverTotal(stars)
  }

  /** While a star of another constellation is on the field, the progress
      line's total is below the game-over total. */
  lemma ProgressTotalBelowField(stars: seq<Stars.Star>, current: Stars.ConstellationType, i: int)
    requires 0 <= i < |stars| && stars[i].constellationType != current
    ensures ProgressTotal(stars, current) < GameOverTotal(stars)
  {
  }
}
