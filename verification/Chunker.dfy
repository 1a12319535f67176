/** Splitting a reply into Signal messages of bounded UTF-8 size. */
module Chunker {
  import opened Options
  import opened Utf8

  /** A chunk body together with the separator that the split swallows after it. */
  datatype Piece = Piece(body: string, sep: string)

  predicate IsSeparator(sep: string) {
    sep == "" || sep == "\n\n" || sep == "\n" || sep == " " || sep == "\t"
  }

  function Rebuild(pieces: seq<Piece>): string {
    if pieces == [] then "" else pieces[0].body + pieces[0].sep + Rebuild(pieces[1..])
  }

  function Bodies(pieces: seq<Piece>): (r: seq<string>)
    ensures |r| == |pieces|
    ensures forall i :: 0 <= i < |r| ==> r[i] == pieces[i].body
  {
    if pieces == [] then [] else [pieces[0].body] + Bodies(pieces[1..])
  }

  // ---------------------------------------------------------------------------------------------
  // Where to cut
  // ---------------------------------------------------------------------------------------------

  predicate Occurs(w: string, pat: string, i: int) {
    0 <= i <= |w| - |pat| && w[i..i + |pat|] == pat
  }

  /** The largest index up to `i` where `pat` occurs, or -1. */
  function RFindFrom(w: string, pat: string, i: int): (r: int)
    requires i <= |w| - |pat|
    ensures r == -1 || (0 <= r <= i && Occurs(w, pat, r))
    decreases i + 1
  {
    if i < 0 then -1
    else if w[i..i + |pat|] == pat then i
    else RFindFrom(w, pat, i - 1)
  }

  lemma {:induction false} RFindFromIsLast(w: string, pat: string, i: int, j: int)
    requires RFindFrom(w, pat, if i <= |w| - |pat| then i else |w| - |pat|) < j <= i
    ensures !Occurs(w, pat, j)
    decreases i + 1
  {
    if i > |w| - |pat| {
      if j <= |w| - |pat| {
        RFindFromIsLast(w, pat, |w| - |pat|, j);
      }
    } else if i >= 0 && w[i..i + |pat|] != pat && j < i {
      RFindFromIsLast(w, pat, i - 1, j);
    }
  }

  function RFind(w: string, pat: string): (r: int)
    ensures r == -1 || (0 <= r <= |w| - |pat| && Occurs(w, pat, r))
  {
    RFindFrom(w, pat, |w| - |pat|)
  }

  function Max(a: int, b: int): int { if a >= b then a else b }

  /** How much of a full window becomes the body, and how long the separator after it is. */
  function Cut(w: string): (r: (nat, nat))
    requires w != ""
    ensures 0 < r.0 <= |w| && r.0 + r.1 <= |w|
  {
    var paragraph := RFind(w, "\n\n");
    if paragraph > 0 then (paragraph, 2)
    else
      var line := RFind(w, "\n");
      if line > 0 then (line, 1)
      else
        var blank := Max(RFind(w, " "), RFind(w, "\t"));
        if blank > 0 then (blank, 1) else (|w|, 0)
  }

  ghost predicate LastOf(w: string, pat: string, i: int) {
    i > 0 && Occurs(w, pat, i) && forall j :: Occurs(w, pat, j) ==> j <= i
  }

  ghost predicate AllBelow(w: string, pat: string, i: int) {
    forall j :: Occurs(w, pat, j) ==> j < i
  }

  /** The break a reader would pick in a full window: the last paragraph break that leaves a body, else the last
      line break, else the last blank, else no break at all. */
  ghost predicate Preferred(w: string, p: Piece) {
    && p.body != "" && p.body + p.sep <= w
    && if p.sep == "\n\n" then LastOf(w, "\n\n", |p.body|)
       else AllBelow(w, "\n\n", 1) &&
            if p.sep == "\n" then LastOf(w, "\n", |p.body|)
            else AllBelow(w, "\n", 1) &&
                 if p.sep == " " then LastOf(w, " ", |p.body|) && AllBelow(w, "\t", |p.body|)
                 else if p.sep == "\t" then LastOf(w, "\t", |p.body|) && AllBelow(w, " ", |p.body|)
                 else p == Piece(w, "") && AllBelow(w, " ", 1) && AllBelow(w, "\t", 1)
  }

  function CutPiece(w: string): Piece
    requires w != ""
  {
    var (cut, n) := Cut(w);
    Piece(w[..cut], w[cut..cut + n])
  }

  lemma RFindIsLast(w: string, pat: string)
    ensures RFind(w, pat) > 0 ==> LastOf(w, pat, RFind(w, pat))
    ensures RFind(w, pat) <= 0 ==> AllBelow(w, pat, 1)
    ensures AllBelow(w, pat, RFind(w, pat) + 1)
  {
    forall j | j > RFind(w, pat) ensures !Occurs(w, pat, j) {
      if j <= |w| - |pat| {
        RFindFromIsLast(w, pat, |w| - |pat|, j);
      }
    }
  }

  lemma BlankElsewhere(w: string, pat: string, other: string, i: int)
    requires |pat| == |other| == 1 && pat != other && Occurs(w, other, i) && AllBelow(w, pat, i + 1)
    ensures AllBelow(w, pat, i)
  {
    assert !Occurs(w, pat, i);
  }

  lemma CutIsPreferred(w: string)
    requires w != ""
    ensures Preferred(w, CutPiece(w)) && IsSeparator(CutPiece(w).sep)
  {
    hide RFind, RFindFrom;
    var (cut, n) := Cut(w);
    var p := CutPiece(w);
    assert p.body + p.sep == w[..cut + n];
    assert |p.body| == cut && |p.sep| == n;
    assert forall pat: string :: Occurs(w, pat, cut) && |pat| == n ==> p.sep == pat;
    RFindIsLast(w, "\n\n");
    RFindIsLast(w, "\n");
    RFindIsLast(w, " ");
    RFindIsLast(w, "\t");
    var space, tab := RFind(w, " "), RFind(w, "\t");
    if n == 1 && RFind(w, "\n") <= 0 {
      if space >= tab {
        BlankElsewhere(w, "\t", " ", space);
      } else {
        BlankElsewhere(w, " ", "\t", tab);
      }
    }
  }

  // ---------------------------------------------------------------------------------------------
  // The greedy split
  // ---------------------------------------------------------------------------------------------

  lemma PrefixIsPrefix(text: string, max: nat)
    ensures BytePrefix(text, max) <= text && Size(BytePrefix(text, max)) <= max
  {
    BytePrefixIsLongest(text, max);
  }

  function Window(text: string, limit: nat): (w: string)
    ensures w <= text
  {
    PrefixIsPrefix(text, limit);
    BytePrefix(text, limit)
  }

  function Pieces(text: string, limit: nat): seq<Piece>
    decreases |text|
  {
    if Size(text) <= limit then
      if text == "" then [] else [Piece(text, "")]
    else
      var w := Window(text, limit);
      if w == "" then Pieces(text[1..], limit)
      else
        var (cut, n) := Cut(w);
        [CutPiece(w)] + Pieces(text[cut + n..], limit)
  }

  /** The fallback that ignores white space. */
  function HardPieces(text: string, limit: nat): seq<Piece>
    decreases |text|
  {
    if text == "" then []
    else
      var w := Window(text, limit);
      if w == "" then HardPieces(text[1..], limit) else [Piece(w, "")] + HardPieces(text[|w|..], limit)
  }

  function Kept(c: char, limit: nat): string {
    if |Encode(c)| <= limit then [c] else ""
  }

  /** The text without the code points that no chunk of `limit` bytes can hold. */
  function Sendable(text: string, limit: nat): string {
    if text == "" then "" else Kept(text[0], limit) + Sendable(text[1..], limit)
  }

  lemma {:induction false} AllSendable(text: string, limit: nat)
    requires limit >= 4 || Size(text) <= limit
    ensures Sendable(text, limit) == text
  {
    if text != "" {
      assert Size(text) == |Encode(text[0])| + Size(text[1..]);
      hide Encode, Size;
      AllSendable(text[1..], limit);
      assert Kept(text[0], limit) == [text[0]];
    }
  }

  lemma {:induction false} SendableConcat(a: string, b: string, limit: nat)
    ensures Sendable(a + b, limit) == Sendable(a, limit) + Sendable(b, limit)
  {
    hide Encode, Kept;
    if a == "" {
      assert a + b == b;
    } else {
      SendableConcat(a[1..], b, limit);
      assert (a + b)[1..] == a[1..] + b;
      assert Sendable(a + b, limit) == Kept(a[0], limit) + Sendable(a[1..] + b, limit);
      assert Sendable(a, limit) == Kept(a[0], limit) + Sendable(a[1..], limit);
      hide Sendable;
    }
  }

  lemma WindowFacts(text: string, limit: nat)
    ensures Window(text, limit) <= text
    ensures Size(Window(text, limit)) <= limit
    ensures IsLongestFit(text, limit, Window(text, limit))
    ensures Sendable(Window(text, limit), limit) == Window(text, limit)
    ensures text != "" && Window(text, limit) == "" ==> |Encode(text[0])| > limit
  {
    BytePrefixIsLongest(text, limit);
    var w := Window(text, limit);
    AllSendable(w, limit);
    if text != "" && w == "" {
      assert text[..1] == [text[0]];
      assert EncodeAll([text[0]]) == Encode(text[0]) + [];
    }
  }

  lemma NothingFits(text: string, limit: nat)
    requires text != "" && Window(text, limit) == ""
    ensures Sendable(text, limit) == Sendable(text[1..], limit)
  {
    WindowFacts(text, limit);
  }

  lemma SizeOfPrefix(w: string, k: nat)
    requires k <= |w|
    ensures Size(w[..k]) <= Size(w)
  {
    assert w == w[..k] + w[k..];
    SizeOfConcat(w[..k], w[k..]);
  }

  predicate GoodPiece(p: Piece, limit: nat) {
    p.body != "" && IsSeparator(p.sep) && Size(p.body) <= limit
  }

  lemma {:induction false} SendableSplit(text: string, w: string, k: nat, limit: nat)
    requires w <= text && k <= |w| && Size(w) <= limit
    ensures Sendable(text, limit) == w[..k] + Sendable(text[k..], limit)
  {
    hide Encode, EncodeAll, Sendable;
    SizeOfPrefix(w, k);
    AllSendable(w[..k], limit);
    assert text == w[..k] + text[k..];
    SendableConcat(w[..k], text[k..], limit);
  }

  predicate GoodPieces(pieces: seq<Piece>, limit: nat) {
    forall i :: 0 <= i < |pieces| ==> GoodPiece(pieces[i], limit)
  }

  lemma RebuildCons(p: Piece, rest: seq<Piece>, limit: nat)
    ensures Rebuild([p] + rest) == p.body + p.sep + Rebuild(rest)
    ensures GoodPiece(p, limit) && GoodPieces(rest, limit) ==> GoodPieces([p] + rest, limit)
  {
    assert ([p] + rest)[1..] == rest;
  }

  lemma FirstPiece(text: string, limit: nat)
    requires Window(text, limit) != ""
    ensures var p := CutPiece(Window(text, limit)); var k := |p.body| + |p.sep|;
      GoodPiece(p, limit) && 0 < k <= |text| && Sendable(text, limit) == p.body + p.sep + Sendable(text[k..], limit)
  {
    hide Encode, EncodeAll, Cut, Preferred, Window, Size, IsLongestFit, Sendable;
    WindowFacts(text, limit);
    var w := Window(text, limit);
    var (cut, n) := Cut(w);
    var p := CutPiece(w);
    CutIsPreferred(w);
    SizeOfPrefix(w, cut);
    SendableSplit(text, w, cut + n, limit);
    assert p.body + p.sep == w[..cut + n];
  }

  lemma OnePiece(text: string, limit: nat)
    requires Size(text) <= limit
    ensures Rebuild(Pieces(text, limit)) == Sendable(text, limit) && GoodPieces(Pieces(text, limit), limit)
  {
    hide Encode, EncodeAll;
    AllSendable(text, limit);
    assert Rebuild([]) == "";
    PlainCons(text, []);
  }

  /** Every body is non-empty and fits, separators are the four kinds of white space or nothing, and together they
      rebuild the sendable part of the text. */
  lemma {:induction false} PiecesRebuild(text: string, limit: nat)
    ensures Rebuild(Pieces(text, limit)) == Sendable(text, limit)
    ensures GoodPieces(Pieces(text, limit), limit)
    decreases |text|
  {
    assert Size("") == 0;
    hide *;
    if Size(text) <= limit {
      OnePiece(text, limit);
    } else {
      PiecesUnfold(text, limit);
      var w := Window(text, limit);
      if w == "" {
        NothingFits(text, limit);
        PiecesRebuild(text[1..], limit);
      } else {
        var p := CutPiece(w);
        FirstPiece(text, limit);
        var rest := text[|p.body| + |p.sep|..];
        PiecesRebuild(rest, limit);
        RebuildCons(p, Pieces(rest, limit), limit);
      }
    }
  }

  lemma PiecesUnfold(text: string, limit: nat)
    requires Size(text) > limit
    ensures var w := Window(text, limit);
      if w == "" then text != "" && Pieces(text, limit) == Pieces(text[1..], limit)
      else
        var p := CutPiece(w); var k := |p.body| + |p.sep|;
        k <= |text| && Pieces(text, limit) == [p] + Pieces(text[k..], limit)
  {
    assert Size("") == 0;
    hide Encode, EncodeAll, Cut, Window, Size;
  }

  ghost predicate AllUnseparated(pieces: seq<Piece>) {
    forall i :: 0 <= i < |pieces| ==> pieces[i].sep == ""
  }

  /** The hard cut swallows nothing: its bodies concatenate to the sendable part of the text. */
  lemma {:induction false} HardPiecesRebuild(text: string, limit: nat)
    ensures Rebuild(HardPieces(text, limit)) == Sendable(text, limit)
    decreases |text|
  {
    hide Encode, EncodeAll, Window, Size;
    if text == "" {
      assert Rebuild(HardPieces(text, limit)) == "";
    } else {
      hide Rebuild, Sendable, IsLongestFit;
      var w := Window(text, limit);
      if w == "" {
        NothingFits(text, limit);
        HardPiecesRebuild(text[1..], limit);
      } else {
        HardPiecesRebuild(text[|w|..], limit);
        FirstWindow(text, limit);
        PlainCons(w, HardPieces(text[|w|..], limit));
      }
    }
  }

  lemma FirstWindow(text: string, limit: nat)
    ensures var w := Window(text, limit); Sendable(text, limit) == w + Sendable(text[|w|..], limit)
  {
    hide Encode, EncodeAll, Window, Size, Sendable, IsLongestFit;
    WindowFacts(text, limit);
    var w := Window(text, limit);
    SendableSplit(text, w, |w|, limit);
    assert w[..|w|] == w;
  }

  lemma PlainCons(w: string, rest: seq<Piece>)
    ensures Rebuild([Piece(w, "")] + rest) == w + Rebuild(rest)
  {
    assert ([Piece(w, "")] + rest)[1..] == rest;
  }

  lemma {:induction false} HardPiecesFit(text: string, limit: nat)
    ensures GoodPieces(HardPieces(text, limit), limit) && AllUnseparated(HardPieces(text, limit))
    decreases |text|
  {
    hide Encode, EncodeAll, Window, Size, Sendable, IsLongestFit;
    if text != "" {
      WindowFacts(text, limit);
      var w := Window(text, limit);
      HardPiecesFit(if w == "" then text[1..] else text[|w|..], limit);
    }
  }

  /** At the `k`-th cut of a text, the rest either fits and is the last body, or is cut at the preferred break of
      its longest prefix that fits. */
  ghost predicate CutWell(rest: string, limit: nat, pieces: seq<Piece>)
    requires pieces != []
  {
    if Size(rest) <= limit then pieces == [Piece(rest, "")]
    else exists w :: IsLongestFit(rest, limit, w) && Preferred(w, pieces[0])
  }

  lemma {:induction false} EveryCutIsPreferred(text: string, limit: nat, k: nat)
    requires limit >= 4 && k < |Pieces(text, limit)|
    ensures CutWell(Rebuild(Pieces(text, limit)[k..]), limit, Pieces(text, limit)[k..])
    decreases k
  {
    assert Size("") == 0;
    hide Encode, EncodeAll, Cut, Preferred, Window, IsLongestFit, Sendable, Rebuild;
    var pieces := Pieces(text, limit);
    PiecesRebuild(text, limit);
    AllSendable(text, limit);
    if k == 0 {
      assert pieces[0..] == pieces;
      if Size(text) > limit {
        WindowFacts(text, limit);
        NonEmptyWindow(text, limit);
        CutIsPreferred(Window(text, limit));
      }
    } else {
      NonEmptyWindow(text, limit);
      var (cut, n) := Cut(Window(text, limit));
      var rest := text[cut + n..];
      assert pieces[k..] == Pieces(rest, limit)[k - 1..];
      EveryCutIsPreferred(rest, limit, k - 1);
    }
  }

  lemma NonEmptyWindow(text: string, limit: nat)
    requires limit >= 4 && text != ""
    ensures Window(text, limit) != ""
  {
    WindowFacts(text, limit);
  }

  // ---------------------------------------------------------------------------------------------
  // Markers
  // ---------------------------------------------------------------------------------------------

  function Digit(n: nat): char
    requires n < 10
  {
    ('0' as int + n) as char
  }

  function Decimal(n: nat): string {
    if n < 10 then [Digit(n)] else Decimal(n / 10) + [Digit(n % 10)]
  }

  function Marker(i: nat, m: nat): string {
    "[" + Decimal(i) + "/" + Decimal(m) + "] "
  }

  lemma {:induction false} DecimalWidthIsMonotone(a: nat, b: nat)
    requires a <= b
    ensures |Decimal(a)| <= |Decimal(b)|
  {
    if a >= 10 {
      DecimalWidthIsMonotone(a / 10, b / 10);
    }
  }

  ghost predicate IsAscii(s: string) {
    forall i :: 0 <= i < |s| ==> s[i] as int < 0x80
  }

  lemma {:induction false} AsciiSize(s: string)
    requires IsAscii(s)
    ensures Size(s) == |s|
  {
    if s != "" {
      assert |Encode(s[0])| == 1;
      AsciiSize(s[1..]);
    }
  }

  lemma {:induction false} DecimalIsAscii(n: nat)
    ensures IsAscii(Decimal(n))
  {
    if n >= 10 {
      DecimalIsAscii(n / 10);
    }
  }

  lemma MarkerSize(i: nat, m: nat)
    requires i <= m
    ensures Size(Marker(i, m)) == |Marker(i, m)| <= |Marker(m, m)|
  {
    DecimalIsAscii(i);
    DecimalIsAscii(m);
    DecimalWidthIsMonotone(i, m);
    assert IsAscii(Marker(i, m));
    AsciiSize(Marker(i, m));
  }

  /** The bodies with their markers. */
  function Label(pieces: seq<Piece>): (r: seq<string>)
    ensures |r| == |pieces|
  {
    seq(|pieces|, i requires 0 <= i < |pieces| => Marker(i + 1, |pieces|) + pieces[i].body)
  }

  lemma LabelledFits(pieces: seq<Piece>, max: nat, i: nat)
    requires i < |pieces| && |Marker(|pieces|, |pieces|)| <= max
    requires GoodPieces(pieces, max - |Marker(|pieces|, |pieces|)|)
    ensures Size(Label(pieces)[i]) <= max
  {
    hide Marker, Size;
    MarkerSize(i + 1, |pieces|);
    SizeOfConcat(Marker(i + 1, |pieces|), pieces[i].body);
    assert GoodPiece(pieces[i], max - |Marker(|pieces|, |pieces|)|);
  }

  // ---------------------------------------------------------------------------------------------
  // The fixpoint on the marker width
  // ---------------------------------------------------------------------------------------------

  const ROUNDS: nat := 5

  /** Splits for the marker width of `m` chunks until the number of chunks is the one assumed. */
  function Settle(message: string, max: nat, m: nat, rounds: nat): Option<seq<Piece>>
    decreases rounds
  {
    var width := |Marker(m, m)|;
    if rounds == 0 || max < width + 4 then None
    else
      var pieces := Pieces(message, max - width);
      if |pieces| == m then Some(pieces) else Settle(message, max, |pieces|, rounds - 1)
  }

  function Chunks(message: string, max: nat): seq<string> {
    if Size(message) <= max then [message]
    else
      var first := Pieces(message, max);
      if |first| == 1 then Bodies(first)
      else
        match Settle(message, max, |first|, ROUNDS)
        case Some(pieces) => Label(pieces)
        case None => Bodies(HardPieces(message, max))
  }

  /** `pieces` are a greedy split for exactly the room that their own markers leave. */
  ghost predicate Settled(message: string, max: nat, pieces: seq<Piece>) {
    var width := |Marker(|pieces|, |pieces|)|;
    max >= width + 4 && pieces == Pieces(message, max - width)
  }

  lemma {:induction false} SettleIsFixpoint(message: string, max: nat, m: nat, rounds: nat)
    ensures var r := Settle(message, max, m, rounds); r.Some? ==> Settled(message, max, r.value)
    decreases rounds
  {
    hide Marker, Pieces;
    var width := |Marker(m, m)|;
    if rounds > 0 && max >= width + 4 && |Pieces(message, max - width)| != m {
      SettleIsFixpoint(message, max, |Pieces(message, max - width)|, rounds - 1);
    }
  }

  /** The pieces behind the chunks of a message that does not fit in one. */
  ghost function Parts(message: string, max: nat): seq<Piece> {
    if Size(message) <= max then [Piece(message, "")]
    else
      var first := Pieces(message, max);
      if |first| == 1 then first
      else
        match Settle(message, max, |first|, ROUNDS)
        case Some(pieces) => pieces
        case None => HardPieces(message, max)
  }

  lemma GoodForLess(pieces: seq<Piece>, less: nat, max: nat)
    requires less <= max && GoodPieces(pieces, less)
    ensures GoodPieces(pieces, max)
  {
    forall i | 0 <= i < |pieces| ensures GoodPiece(pieces[i], max) {
      assert GoodPiece(pieces[i], less);
    }
  }

  lemma PartsAreGood(message: string, max: nat)
    requires message != ""
    ensures GoodPieces(Parts(message, max), max)
    ensures Rebuild(Parts(message, max)) == Sendable(message, max)
  {
    hide Encode, Marker, Pieces, HardPieces, Sendable, Settle;
    var first := Pieces(message, max);
    if Size(message) <= max {
      AllSendable(message, max);
      assert Rebuild([Piece(message, "")]) == message + "" + Rebuild([Piece(message, "")][1..]);
    } else if |first| == 1 {
      PiecesRebuild(message, max);
    } else {
      SettleIsFixpoint(message, max, |first|, ROUNDS);
      match Settle(message, max, |first|, ROUNDS)
      case Some(pieces) =>
        var room := max - |Marker(|pieces|, |pieces|)|;
        PiecesRebuild(message, room);
        AllSendable(message, room);
        AllSendable(message, max);
        GoodForLess(pieces, room, max);
      case None =>
        HardPiecesRebuild(message, max);
        HardPiecesFit(message, max);
    }
  }

  /** Every chunk that is sent, marker included, is at most `max` bytes of UTF-8, and only the empty message gives
      an empty chunk. */
  lemma ChunksFit(message: string, max: nat, i: nat)
    requires i < |Chunks(message, max)|
    ensures Size(Chunks(message, max)[i]) <= max
    ensures message != "" ==> Chunks(message, max)[i] != ""
  {
    hide Encode, Size, Marker, Pieces, HardPieces, Sendable, Settle;
    var first := Pieces(message, max);
    if Size(message) > max {
      if |first| == 1 {
        PiecesRebuild(message, max);
        assert GoodPiece(first[i], max);
      } else {
        SettleIsFixpoint(message, max, |first|, ROUNDS);
        match Settle(message, max, |first|, ROUNDS)
        case Some(pieces) =>
          var room := max - |Marker(|pieces|, |pieces|)|;
          PiecesRebuild(message, room);
          LabelledFits(pieces, max, i);
          assert GoodPiece(pieces[i], room);
        case None =>
          HardPiecesFit(message, max);
          assert GoodPiece(HardPieces(message, max)[i], max);
      }
    }
  }

  /** Marked chunks are at least two: what a single body and its separator leave out is less than its marker. */
  lemma SettledIsSeveral(message: string, max: nat, pieces: seq<Piece>)
    requires Settled(message, max, pieces) && Size(message) > max
    ensures |pieces| > 1
  {
    hide Encode, Pieces, Sendable;
    assert Size("") == 0;
    assert Rebuild([]) == "";
    var room := max - |Marker(|pieces|, |pieces|)|;
    PiecesRebuild(message, room);
    AllSendable(message, room);
    if |pieces| == 1 {
      var p := pieces[0];
      assert GoodPiece(p, room);
      assert message == p.body + p.sep + Rebuild(pieces[1..]);
      assert message == p.body + p.sep;
      SizeOfConcat(p.body, p.sep);
      AsciiSize(p.sep);
    }
  }

  /** The chunks are the bodies of one splitting of the message, in order: unmarked and with nothing swallowed
      unless there is only one, or each marked with its place and with the true number of chunks. The splitting
      rebuilds the message up to the code points that are larger than a whole chunk. */
  lemma ChunksRebuild(message: string, max: nat)
    requires message != ""
    ensures var parts, chunks := Parts(message, max), Chunks(message, max);
            && GoodPieces(parts, max)
            && Rebuild(parts) == Sendable(message, max)
            && ((chunks == Bodies(parts) && (|parts| == 1 || AllUnseparated(parts)))
                || (|chunks| > 1 && chunks == Label(parts) && Settled(message, max, parts)))
  {
    hide Encode, Marker, Pieces, HardPieces, Sendable, Rebuild, GoodPieces, Size;
    PartsAreGood(message, max);
    HardPiecesFit(message, max);
    var first := Pieces(message, max);
    assert Bodies([Piece(message, "")]) == [message];
    if Size(message) > max && |first| != 1 {
      var settled := Settle(message, max, |first|, ROUNDS);
      SettleIsFixpoint(message, max, |first|, ROUNDS);
      if settled.Some? {
        SettledIsSeveral(message, max, settled.value);
      }
    }
  }

  /** For the budgets the configuration admits, nothing is lost. */
  lemma NothingIsLost(message: string, max: nat)
    requires message != "" && max >= 4
    ensures Rebuild(Parts(message, max)) == message
  {
    PartsAreGood(message, max);
    AllSendable(message, max);
  }

  // ---------------------------------------------------------------------------------------------
  // The loops
  // ---------------------------------------------------------------------------------------------

  lemma BodiesOfCons(p: Piece, rest: seq<Piece>)
    ensures Bodies([p] + rest) == [p.body] + Bodies(rest)
  {
    assert ([p] + rest)[1..] == rest;
  }

  lemma OneMorePiece(text: string, limit: nat, cut: nat, n: nat)
    requires Size(text) > limit && Window(text, limit) != "" && Cut(Window(text, limit)) == (cut, n)
    ensures cut + n <= |text| && 0 < cut
    ensures Bodies(Pieces(text, limit)) == [text[..cut]] + Bodies(Pieces(text[cut + n..], limit))
  {
    hide Encode, EncodeAll, Cut, Window;
    BodiesOfCons(CutPiece(Window(text, limit)), Pieces(text[cut + n..], limit));
    assert Window(text, limit)[..cut] == text[..cut];
  }

  /** What is out already, followed by the split of the rest, is the split of the whole. */
  ghost predicate Splitting(out: seq<string>, remaining: string, limit: nat, total: seq<string>) {
    out + Bodies(Pieces(remaining, limit)) == total
  }

  ghost predicate SplitsAt(out: seq<string>, remaining: string, cut: int, n: nat, limit: nat, total: seq<string>) {
    0 < cut <= cut + n <= |remaining| && Splitting(out + [remaining[..cut]], remaining[cut + n..], limit, total)
  }

  lemma SplitAdvances(out: seq<string>, remaining: string, limit: nat, total: seq<string>)
    requires Splitting(out, remaining, limit, total) && Size(remaining) > limit && remaining != ""
    ensures var w := Window(remaining, limit);
            if w == "" then Splitting(out, remaining[1..], limit, total)
            else var (cut, n) := Cut(w); SplitsAt(out, remaining, cut, n, limit, total)
  {
    hide Encode, EncodeAll, Cut, Window, Bodies, CutPiece;
    var w := Window(remaining, limit);
    if w != "" {
      hide Pieces;
      var (cut, n) := Cut(w);
      OneMorePiece(remaining, limit, cut, n);
      assert out + ([remaining[..cut]] + Bodies(Pieces(remaining[cut + n..], limit))) == total;
    }
  }

  lemma SplitEnds(out: seq<string>, remaining: string, limit: nat, total: seq<string>)
    requires Splitting(out, remaining, limit, total) && Size(remaining) <= limit
    ensures total == if remaining != "" then out + [remaining] else out
  {
    assert Bodies([]) == [];
    assert Bodies([Piece(remaining, "")]) == [remaining];
  }

  method SplitGreedyBytes(text: string, limit: nat) returns (out: seq<string>)
    ensures out == Bodies(Pieces(text, limit))
  {
    assert Size("") == 0;
    ghost var total := Bodies(Pieces(text, limit));
    out := [];
    var remaining := text;
    assert Splitting(out, remaining, limit, total);
    hide Encode, EncodeAll, Bodies, Pieces, RFind, Window, Splitting, Size, Occurs, RFindFrom, BytePrefix, SplitsAt;
    while Size(remaining) > limit
      invariant Splitting(out, remaining, limit, total)
      decreases |remaining|
    {
      SplitAdvances(out, remaining, limit, total);
      var window := Window(remaining, limit);
      var cut := RFind(window, "\n\n");
      if cut > 0 {
        assert SplitsAt(out, remaining, cut, 2, limit, total);
        out, remaining := TakePiece(out, remaining, cut, 2, limit, total);
        continue;
      }
      cut := RFind(window, "\n");
      if cut > 0 {
        assert SplitsAt(out, remaining, cut, 1, limit, total);
        out, remaining := TakePiece(out, remaining, cut, 1, limit, total);
        continue;
      }
      cut := Max(RFind(window, " "), RFind(window, "\t"));
      if cut > 0 {
        assert SplitsAt(out, remaining, cut, 1, limit, total);
        out, remaining := TakePiece(out, remaining, cut, 1, limit, total);
        continue;
      }
      if window != "" {
        assert SplitsAt(out, remaining, |window|, 0, limit, total);
        out, remaining := TakePiece(out, remaining, |window|, 0, limit, total);
      } else {
        remaining := remaining[1..];
      }
    }
    SplitEnds(out, remaining, limit, total);
    if remaining != "" {
      out := out + [remaining];
    }
  }

  method TakePiece(out: seq<string>, remaining: string, cut: int, n: nat, limit: nat, ghost total: seq<string>)
    returns (out': seq<string>, remaining': string)
    requires SplitsAt(out, remaining, cut, n, limit, total)
    ensures Splitting(out', remaining', limit, total) && |remaining'| < |remaining|
    ensures 0 < cut <= cut + n <= |remaining| && out' == out + [remaining[..cut]] && remaining' == remaining[cut + n..]
  {
    out', remaining' := out + [remaining[..cut]], remaining[cut + n..];
  }

  method HardByteCut(message: string, max: nat) returns (out: seq<string>)
    ensures out == Bodies(HardPieces(message, max))
  {
    hide Encode, EncodeAll, Window, Bodies;
    assert Bodies([]) == [];
    out := [];
    var remaining := message;
    while remaining != ""
      invariant out + Bodies(HardPieces(remaining, max)) == Bodies(HardPieces(message, max))
      decreases |remaining|
    {
      var prefix := Window(remaining, max);
      if prefix != "" {
        BodiesOfCons(Piece(prefix, ""), HardPieces(remaining[|prefix|..], max));
        out, remaining := out + [prefix], remaining[|prefix|..];
      } else {
        remaining := remaining[1..];
      }
    }
  }

  method ChunkForSignalBytes(message: string, max: nat) returns (chunks: seq<string>)
    ensures chunks == Chunks(message, max)
  {
    hide Encode, EncodeAll, Pieces, HardPieces, Marker, Size;
    if Size(message) <= max {
      return [message];
    }
    chunks := SplitGreedyBytes(message, max);
    if |chunks| == 1 {
      return;
    }
    var m := |chunks|;
    ghost var pieces := Pieces(message, max);
    var settled := false;
    for round := 0 to ROUNDS
      invariant !settled && |chunks| == |pieces| == m
      invariant Settle(message, max, |Pieces(message, max)|, ROUNDS) == Settle(message, max, m, ROUNDS - round)
    {
      var width := |Marker(m, m)|;
      if max < width + 4 {
        chunks := HardByteCut(message, max);
        return;
      }
      chunks := SplitGreedyBytes(message, max - width);
      pieces := Pieces(message, max - width);
      if |chunks| == m {
        settled := true;
        break;
      }
      m := |chunks|;
    }
    if !settled {
      chunks := HardByteCut(message, max);
      return;
    }
    chunks := seq(|chunks|, i requires 0 <= i < |chunks| => Marker(i + 1, m) + chunks[i]);
    assert chunks == Label(pieces);
  }
}
