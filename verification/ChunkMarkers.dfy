/** What a recipient reads in the markers of a split reply. */
module ChunkMarkers {
  import opened Utf8
  import opened Chunker

  predicate AllDigits(s: string) {
    forall i :: 0 <= i < |s| ==> '0' <= s[i] <= '9'
  }

  /** The number that a row of digits denotes. */
  function Value(s: string): int {
    if s == "" then 0 else Value(s[..|s| - 1]) * 10 + (s[|s| - 1] as int - '0' as int)
  }

  /** `s` is the usual way to write `n`: digits, no sign, no leading zero. */
  predicate Numeral(s: string, n: int) {
    s != "" && AllDigits(s) && Value(s) == n && (|s| > 1 ==> s[0] != '0')
  }

  lemma {:induction false} DecimalIsNumeral(n: nat)
    ensures Numeral(Decimal(n), n) && (n > 0 ==> Decimal(n)[0] != '0')
  {
    if n >= 10 {
      DecimalIsNumeral(n / 10);
      var s := Decimal(n);
      assert s[..|s| - 1] == Decimal(n / 10);
    }
  }

  lemma {:induction false} ValueIsNatural(s: string)
    requires AllDigits(s)
    ensures Value(s) >= 0 && (s != "" && s[0] != '0' ==> Value(s) > 0)
  {
    if s != "" {
      ValueIsNatural(s[..|s| - 1]);
    }
  }

  /** A number is written in one way only. */
  lemma {:induction false} NumeralIsUnique(a: string, b: string, n: int)
    requires Numeral(a, n) && Numeral(b, n)
    ensures a == b
    decreases |a|
  {
    var front, back := a[..|a| - 1], b[..|b| - 1];
    var x, y := a[|a| - 1], b[|b| - 1];
    ValueIsNatural(front);
    ValueIsNatural(back);
    assert Value(front) == n / 10 == Value(back);
    assert x == y;
    assert a == front + [x] && b == back + [y];
    if front != "" && back != "" {
      NumeralIsUnique(front, back, n / 10);
    }
  }

  /** The chunk says that it is the `i`-th of `m`, and then its text. */
  ghost predicate ReadsAs(chunk: string, i: int, m: int, body: string) {
    exists place: string, count: string ::
      Numeral(place, i) && Numeral(count, m) && chunk == "[" + place + "/" + count + "] " + body
  }

  /** Whenever a message is sent in marked chunks, each says its true place, from one on, and the true number of chunks. */
  lemma MarkersAreTrue(message: string, max: nat)
    requires message != ""
    ensures var parts, chunks := Parts(message, max), Chunks(message, max);
      && |chunks| == |parts|
      && (chunks == Bodies(parts) || forall i :: 0 <= i < |chunks| ==> ReadsAs(chunks[i], i + 1, |chunks|, parts[i].body))
  {
    var parts, chunks := Parts(message, max), Chunks(message, max);
    ChunksRebuild(message, max);
    hide Parts, Chunks, GoodPieces, Rebuild, Sendable, AllUnseparated, Settled;
    if chunks != Bodies(parts) {
      forall i | 0 <= i < |chunks| ensures ReadsAs(chunks[i], i + 1, |chunks|, parts[i].body) {
        DecimalIsNumeral(i + 1);
        DecimalIsNumeral(|chunks|);
        var place, count := Decimal(i + 1), Decimal(|chunks|);
        assert chunks[i] == "[" + place + "/" + count + "] " + parts[i].body;
      }
    }
  }
}
