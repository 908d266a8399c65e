/**
 * Cleaning of the measurement-time text: every hour marker '시' and every minute
 * marker '분' is deleted and nothing is put in their place, so "1시30분" becomes "130".
 */
module TimeText {
  import opened Seqs

  const HourMark: char := '시'
  const MinuteMark: char := '분'

  /** `str.replace(c, '')`: `s` with every `c` deleted. */
  function RemoveChar(s: string, c: char): (r: string)
    ensures c !in r
    ensures |r| <= |s|
  {
    if s == [] then [] else (if s[0] == c then [] else [s[0]]) + RemoveChar(s[1..], c)
  }

  /** The two replacements, hour marker first. */
  function Clean(s: string): (r: string)
    ensures HourMark !in r && MinuteMark !in r
    ensures |r| <= |s|
  {
    RemoveCharKeeps(RemoveChar(s, HourMark), MinuteMark, HourMark);
    RemoveChar(RemoveChar(s, HourMark), MinuteMark)
  }

  predicate IsMarker(c: char) {
    c == HourMark || c == MinuteMark
  }

  /** Reference definition: one pass that keeps exactly the characters that are not markers. */
  function KeepNonMarkers(s: string): string {
    if s == [] then [] else (if IsMarker(s[0]) then [] else [s[0]]) + KeepNonMarkers(s[1..])
  }

  /** The two successive replacements delete exactly the markers, in one pass. */
  lemma {:induction false} CleanIsKeepNonMarkers(s: string)
    ensures Clean(s) == KeepNonMarkers(s)
  {
    if s != [] {
      CleanIsKeepNonMarkers(s[1..]);
      assert RemoveChar(s, HourMark) == (if s[0] == HourMark then [] else [s[0]]) + RemoveChar(s[1..], HourMark);
      var t := if s[0] == HourMark then [] else [s[0]];
      assert RemoveChar(t + RemoveChar(s[1..], HourMark), MinuteMark)
          == RemoveChar(t, MinuteMark) + Clean(s[1..]) by {
        RemoveCharAppend(t, RemoveChar(s[1..], HourMark), MinuteMark);
      }
    }
  }

  lemma {:induction false} RemoveCharAppend(a: string, b: string, c: char)
    ensures RemoveChar(a + b, c) == RemoveChar(a, c) + RemoveChar(b, c)
  {
    if a == [] {
      assert a + b == b;
    } else {
      assert (a + b)[0] == a[0] && (a + b)[1..] == a[1..] + b;
      RemoveCharAppend(a[1..], b, c);
    }
  }

  lemma {:induction false} RemoveCharKeeps(s: string, c: char, d: char)
    requires d !in s
    ensures d !in RemoveChar(s, c)
  {
    if s != [] {
      RemoveCharKeeps(s[1..], c, d);
    }
  }

  /**
   * The cleaned text is the input with the markers deleted: it is a subsequence of the input,
   * it holds every other character as often as the input does, and no marker.
   */
  lemma {:induction false} CleanKeepsOthers(s: string)
    ensures IsSubseq(Clean(s), s)
    ensures forall c :: multiset(Clean(s))[c] == if IsMarker(c) then 0 else multiset(s)[c]
  {
    CleanIsKeepNonMarkers(s);
    KeepIsSubseq(s);
    KeepCounts(s);
  }

  lemma {:induction false} KeepIsSubseq(s: string)
    ensures IsSubseq(KeepNonMarkers(s), s)
  {
    if s != [] {
      KeepIsSubseq(s[1..]);
      var t := KeepNonMarkers(s);
      if IsMarker(s[0]) {
        assert t == KeepNonMarkers(s[1..]);
      } else {
        assert t[0] == s[0] && t[1..] == KeepNonMarkers(s[1..]);
      }
    }
  }

  lemma {:induction false} KeepCounts(s: string)
    ensures forall c :: multiset(KeepNonMarkers(s))[c] == if IsMarker(c) then 0 else multiset(s)[c]
  {
    if s != [] {
      KeepCounts(s[1..]);
      assert s == [s[0]] + s[1..];
      assert multiset(s) == multiset([s[0]]) + multiset(s[1..]);
    }
  }

  /** Cleaning cleaned text changes nothing. */
  lemma CleanIdempotent(s: string)
    ensures Clean(Clean(s)) == Clean(s)
  {
    CleanFixedIff(Clean(s));
  }

  /** Cleaning leaves a text alone exactly when it holds no marker. */
  lemma CleanFixedIff(s: string)
    ensures Clean(s) == s <==> HourMark !in s && MinuteMark !in s
  {
    CleanIsKeepNonMarkers(s);
    if HourMark !in s && MinuteMark !in s {
      KeepWithoutMarkers(s);
    }
  }

  lemma {:induction false} KeepWithoutMarkers(s: string)
    requires HourMark !in s && MinuteMark !in s
    ensures KeepNonMarkers(s) == s
  {
    if s != [] {
      assert s[0] in s;
      KeepWithoutMarkers(s[1..]);
    }
  }

  /** The text of the export, cleaned as written: "1시30분" becomes "130". */
  lemma CleanExample()
    ensures Clean("1시30분") == "130"
  {
    CleanIsKeepNonMarkers("1시30분");
    assert KeepNonMarkers("30분") == "30" by {
      assert KeepNonMarkers("분") == [];
    }
  }

  /** As written, the cleaning loses the boundary between hours and minutes. */
  lemma CleanMergesHourAndMinute()
    ensures Clean("13시0분") == Clean("1시30분")
  {
    CleanExample();
    assert Clean("13시0분") == "130" by {
      CleanIsKeepNonMarkers("13시0분");
    }
  }
}
