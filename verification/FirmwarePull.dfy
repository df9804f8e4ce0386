/**
  * The inter-board firmware pull. One board requests its peer's image a word at
  * a time over a link that loses, repeats and reorders, gathers a page in RAM,
  * and writes it over its own running image in NOR flash.
  *
  * `Board` and the functions on it are the tasks and handlers; `PullingBoard` is
  * the machine that updates its fields in place.
  */
module FirmwarePull {
  import opened Basics

  const PAGE := 256
  const SECTOR := 4096
  const PAGES := 1024
  const IMAGE := 262144
  const SUMMED := 258048
  const U32 := 0x1_0000_0000
  const REREQUEST_US := 100_000
  const STALL_US := 30_000_000

  type Clock = t: int | 0 <= t < U32

  type Word = n: int | 0 <= n < U32

  const ONES: Byte := 0xff

  /**
    * The two operations on bytes that belong to the hardware and the checksum:
    * what programming a byte over another leaves, and one step of the checksum.
    */
  datatype Chip = Chip(and: (Byte, Byte) -> Byte, iter: (Word, Byte) -> Word)

  /** What is used of AND: an erased byte takes whatever is programmed, and programming twice changes nothing more. */
  ghost predicate Lawful(chip: Chip) {
    && (forall b :: chip.and(ONES, b) == b)
    && (forall a, b :: chip.and(chip.and(a, b), b) == chip.and(a, b))
  }

  /** AND of the low `bits` bits. */
  function And(a: nat, b: nat, bits: nat): nat {
    if bits == 0 then 0 else 2 * And(a / 2, b / 2, bits - 1) + (if a % 2 == 1 && b % 2 == 1 then 1 else 0)
  }

  lemma {:induction false} AndBound(a: nat, b: nat, bits: nat)
    ensures And(a, b, bits) < Pow2(bits)
    decreases bits
  {
    if bits > 0 {
      AndBound(a / 2, b / 2, bits - 1);
    }
  }

  lemma {:induction false} AndOnes(b: nat, bits: nat)
    requires b < Pow2(bits)
    ensures And(Pow2(bits) - 1, b, bits) == b
    decreases bits
  {
    if bits > 0 {
      HalfOfOnes(Pow2(bits - 1));
      AndOnes(b / 2, bits - 1);
    }
  }

  lemma HalfOfOnes(p: nat)
    requires p > 0
    ensures (2 * p - 1) / 2 == p - 1 && (2 * p - 1) % 2 == 1
  {
  }

  lemma {:induction false} AndAgain(a: nat, b: nat, bits: nat)
    ensures And(And(a, b, bits), b, bits) == And(a, b, bits)
    decreases bits
  {
    if bits > 0 {
      AndAgain(a / 2, b / 2, bits - 1);
    }
  }

  function AndByte(a: Byte, b: Byte): Byte {
    AndBound(a, b, 8);
    And(a, b, 8)
  }

  /** The AND of NOR flash obeys the laws used here. */
  lemma AndIsLawful(iter: (Word, Byte) -> Word)
    ensures Lawful(Chip(AndByte, iter))
  {
    assert Pow2(8) == 256;
    forall b: Byte
      ensures AndByte(ONES, b) == b
    {
      AndOnes(b, 8);
    }
    forall a: Byte, b: Byte
      ensures AndByte(AndByte(a, b), b) == AndByte(a, b)
    {
      AndAgain(a, b, 8);
    }
  }

  const CRC_START: Word := 0xffff_ffff

  /** Every bit of a 32-bit word flipped. */
  function Flip(n: Word): Word {
    0xffff_ffff - n
  }

  function Since(now: Clock, then_: Clock): Clock {
    (now - then_) % 0x1_0000_0000
  }

  function Sum(chip: Chip, crc: Word, s: seq<Byte>): Word
    decreases |s|
  {
    if s == [] then crc else chip.iter(Sum(chip, crc, s[..|s| - 1]), s[|s| - 1])
  }

  /* ------------------------------------------------------------- NOR flash */

  /** Erasing sets every bit of a range. */
  function Erase(flash: seq<Byte>, at: nat, n: nat): (r: seq<Byte>)
    ensures |r| == |flash|
    ensures forall i :: 0 <= i < |flash| ==> r[i] == if at <= i < at + n then ONES else flash[i]
  {
    seq(|flash|, i requires 0 <= i < |flash| => if at <= i < at + n then ONES else flash[i])
  }

  /** Programming can only clear bits: what is stored is the AND. */
  function Program(chip: Chip, flash: seq<Byte>, at: nat, data: seq<Byte>): (r: seq<Byte>)
    ensures |r| == |flash|
    ensures forall i :: 0 <= i < |flash| ==> r[i] == if at <= i < at + |data| then chip.and(flash[i], data[i - at]) else flash[i]
  {
    seq(|flash|, i requires 0 <= i < |flash| =>
      if at <= i < at + |data| then chip.and(flash[i], data[i - at]) else flash[i])
  }

  /** Write a page, erasing its sector first when it is the sector's first page. */
  function WritePage(chip: Chip, flash: seq<Byte>, at: nat, page: seq<Byte>): (r: seq<Byte>)
    ensures |r| == |flash|
  {
    Program(chip, if at % 4096 == 0 then Erase(flash, at, SECTOR) else flash, at, page)
  }

  /* ------------------------------------------------------------- the board */

  datatype Source = NoSource | Pull | Drop

  datatype Board = Board(flash: seq<Byte>, page: seq<Byte>, address: nat, checksum: Word, byteDone: bool,
                         inProgress: bool, source: Source, dirty: bool, progressedAt: Clock, requestedAt: Clock,
                         peerPresent: bool, rebooting: bool, inRom: bool)

  predicate Shape(b: Board) {
    |b.flash| == IMAGE && |b.page| == PAGE && b.address % 4 == 0 && b.address <= IMAGE
  }

  predicate MayPull(b: Board) {
    b.inProgress && b.source == Pull
  }

  predicate RequestLost(b: Board, now: Clock) {
    MayPull(b) && !b.byteDone && Since(now, b.requestedAt) >= REREQUEST_US
  }

  predicate Stalled(b: Board, now: Clock) {
    b.inProgress && Since(now, b.progressedAt) >= STALL_US
  }

  /** Hand the board to the ROM: the first sector is gone, and nothing more runs. */
  function RecoverToRom(b: Board): Board {
    b.(flash := Erase(b.flash, 0, SECTOR), inRom := true)
  }

  /** Give up on the transfer: restart it later, unless the image is damaged and there is no peer to repair it from. */
  function Abandon(b: Board): Board {
    if b.dirty && !b.peerPresent then RecoverToRom(b)
    else b.(inProgress := false, source := NoSource, address := 0)
  }

  /** Ask for the word at the current address; outstanding only if the request was queued. */
  function Request(b: Board, now: Clock, queued: bool): Board {
    b.(requestedAt := now, byteDone := b.byteDone && !queued)
  }

  /** A page is complete and to be written. */
  predicate AtPageEnd(b: Board) {
    b.address % 256 == 0 && b.address != 0
  }

  function WriteGathered(chip: Chip, b: Board): Board
    requires Shape(b)
  {
    if AtPageEnd(b) then b.(flash := WritePage(chip, b.flash, b.address - PAGE, b.page), dirty := true) else b
  }

  function Finish(chip: Chip, b: Board): Board
    requires Shape(b)
  {
    var ended := b.(inProgress := false, source := NoSource, checksum := Flip(b.checksum));
    if Flip(Sum(chip, CRC_START, b.flash[..SUMMED])) != ended.checksum then RecoverToRom(ended)
    else ended.(dirty := false, rebooting := true)
  }

  /** The 4 kHz task: repeat a lost request, write a finished page, end, or ask for the next word. */
  function Task(chip: Chip, b: Board, now: Clock, full: bool, queued: bool): Board
    requires Shape(b)
  {
    if !MayPull(b) then b
    else if !b.byteDone then (if RequestLost(b, now) then Request(b, now, queued) else b)
    else if full then b
    else
      var w := WriteGathered(chip, b);
      if b.address >= IMAGE then Finish(chip, w) else Request(w, now, queued)
  }

  /** Whether that pass puts a request on the link. */
  predicate TaskRequests(b: Board, now: Clock, full: bool, queued: bool) {
    && MayPull(b) && queued
    && if b.byteDone then !full && b.address < IMAGE else RequestLost(b, now)
  }

  function Patch(page: seq<Byte>, at: nat, word: seq<Byte>): (r: seq<Byte>)
    requires at + 4 <= |page| && |word| == 4
    ensures |r| == |page|
    ensures forall i :: 0 <= i < |page| ==> r[i] == if at <= i < at + 4 then word[i - at] else page[i]
  {
    page[..at] + word + page[at + 4..]
  }

  /** A response with the word at `address` of the peer's image. */
  function Response(chip: Chip, b: Board, address: nat, word: seq<Byte>, now: Clock): Board
    requires Shape(b) && |word| == 4
  {
    if !MayPull(b) then b
    else if address != b.address then Abandon(b)
    else
      WordInPage(address);
      b.(checksum := if address < SUMMED then Sum(chip, b.checksum, word) else b.checksum,
         page := Patch(b.page, address % 256, word),
         address := b.address + 4, byteDone := true, progressedAt := now)
  }

  lemma GatheredIs(chip: Chip, b: Board, at: nat, after: seq<Byte>)
    requires Shape(b) && AtPageEnd(b) && at == b.address - PAGE && after == WritePage(chip, b.flash, at, b.page)
    ensures WriteGathered(chip, b) == b.(flash := after, dirty := true)
  {
  }

  lemma PageBehind(address: nat)
    requires address % 256 == 0 && 0 < address <= IMAGE
    ensures PAGE <= address && ((address - PAGE) % 4096 == 0 ==> address - PAGE + SECTOR <= IMAGE)
  {
  }

  lemma WordInPage(address: nat)
    requires address % 4 == 0
    ensures address % 256 + 4 <= 256
  {
  }

  /** A heartbeat that names an image worth pulling, when nothing is being received. */
  function StartPull(b: Board, now: Clock): Board {
    if b.inProgress then b
    else b.(inProgress := true, source := Pull, byteDone := true, address := 0, checksum := CRC_START,
            progressedAt := now)
  }

  /* ------------------------------------------------- the board and the link */

  /**
    * The board, the requests that ever went out and the answers that ever came
    * back (any of which may arrive at any time, any number of times, or never),
    * and an account of the pull in progress: the flash it started over, how many
    * pages it has dealt with, and which of those it dealt with without writing.
    */
  datatype World = World(board: Board, requested: set<nat>, answered: set<nat>,
                         start: seq<Byte>, settled: nat, skipped: set<nat>)

  datatype Event =
    | Tick(now: Clock, full: bool, queued: bool)
    | Answer(address: nat)
    | Deliver(address: nat, now: Clock)
    | Heartbeat(now: Clock, wanted: bool)
    | Watch(now: Clock)
    | PeerSeen(present: bool)
    | Drain

  predicate Over(b: Board) {
    b.inRom || b.rebooting
  }

  /** The page write this pass makes, if any. */
  predicate TickWrites(b: Board, full: bool) {
    MayPull(b) && b.byteDone && !full && AtPageEnd(b)
  }

  function Step(chip: Chip, image: seq<Byte>, w: World, e: Event): World
    requires Shape(w.board) && |image| == IMAGE
  {
    var b := w.board;
    if Over(b) then w
    else match e
    case Tick(now, full, queued) =>
      w.(board := Task(chip, b, now, full, queued),
         requested := w.requested + if TaskRequests(b, now, full, queued) then {b.address} else {},
         settled := if TickWrites(b, full) then b.address / 256 else w.settled)
    case Answer(a) =>
      if a in w.requested && a < IMAGE then w.(answered := w.answered + {a}) else w
    case Deliver(a, now) =>
      if a !in w.answered || a + 4 > IMAGE then w
      else DeliverWord(chip, w, a, image[a..a + 4], now)
    case Heartbeat(now, wanted) =>
      if !wanted || b.inProgress then w
      else w.(board := StartPull(b, now), start := b.flash, settled := 0, skipped := {})
    case Watch(now) =>
      if Stalled(b, now) then w.(board := Abandon(b)) else w
    case PeerSeen(present) =>
      w.(board := b.(peerPresent := present))
    case Drain =>
      w.(requested := {}, answered := {})
  }

  /** An answer that arrives before the page behind it is written: the page in RAM is overwritten, and never written. */
  predicate Early(w: World, a: nat) {
    MayPull(w.board) && a == w.board.address && AtPageEnd(w.board) && w.settled < a / 256
  }

  function DeliverWord(chip: Chip, w: World, a: nat, word: seq<Byte>, now: Clock): World
    requires Shape(w.board) && |word| == 4
  {
    var moved := w.(board := Response(chip, w.board, a, word, now));
    if Early(w, a) then moved.(settled := a / 256, skipped := w.skipped + {a / 256 - 1}) else moved
  }

  /* ---------------------------------------------------------- what is in flash */

  /** The first page of the sector a byte is in. */
  function SectorOf(i: nat): nat {
    i / 4096 * 16
  }

  /** A byte of flash part-way through a pull, in closed form. */
  function Now(chip: Chip, start: Byte, image: Byte, skipped: set<nat>, settled: nat, i: nat): Byte {
    var base := if SectorOf(i) < settled && SectorOf(i) !in skipped then ONES else start;
    if i / 256 < settled && i / 256 !in skipped then chip.and(base, image) else base
  }

  function Layout(chip: Chip, start: seq<Byte>, image: seq<Byte>, skipped: set<nat>, settled: nat): (r: seq<Byte>)
    requires |start| == |image|
    ensures |r| == |start|
    ensures forall i {:trigger r[i]} :: 0 <= i < |r| ==> r[i] == Now(chip, start[i], image[i], skipped, settled, i)
  {
    seq(|start|, i requires 0 <= i < |start| => Now(chip, start[i], image[i], skipped, settled, i))
  }

  /** Which page and sector a byte is in, against the page being written. */
  lemma WhichPage(i: nat, page: nat)
    ensures 256 * page <= i < 256 * page + 256 <==> i / 256 == page
    ensures (256 * page) % 4096 == 0 ==> (256 * page <= i < 256 * page + 4096 <==> SectorOf(i) == page)
    ensures SectorOf(i) <= i / 256 && (SectorOf(i) == page ==> (256 * page) % 4096 == 0)
  {
  }

  /** One byte of a page write, in closed form. */
  lemma WriteByte(chip: Chip, was: Byte, start: Byte, image: Byte, skipped: set<nat>, settled: nat, page: nat, i: nat)
    requires Lawful(chip) && (settled == page || settled == page + 1) && page !in skipped
    requires was == Now(chip, start, image, skipped, settled, i)
    ensures var base := if SectorOf(i) == page then ONES else was;
            Now(chip, start, image, skipped, page + 1, i) == if i / 256 == page then chip.and(base, image) else base
  {
    WhichPage(i, page);
  }

  lemma WrittenByte(chip: Chip, flash: seq<Byte>, k: nat, page: seq<Byte>, i: nat)
    requires i < |flash| && |page| == PAGE
    ensures i / 256 == k ==> 256 * k <= i < 256 * k + 256
    ensures var base := (if SectorOf(i) == k then ONES else flash[i]);
            WritePage(chip, flash, 256 * k, page)[i]
            == if i / 256 == k then chip.and(base, page[i - 256 * k]) else base
  {
    WhichPage(i, k);
  }

  lemma PageByte(image: seq<Byte>, k: nat, page: seq<Byte>, i: nat)
    requires 256 * k + 256 <= |image| && page == image[256 * k..256 * k + 256] && 256 * k <= i < 256 * k + 256
    ensures page[i - 256 * k] == image[i]
  {
  }

  lemma MovedByte(chip: Chip, flash: seq<Byte>, start: seq<Byte>, image: seq<Byte>, skipped: set<nat>, settled: nat,
                  k: nat, page: seq<Byte>, i: nat)
    requires |flash| == |start| == |image| == IMAGE && |page| == PAGE && i < IMAGE
    requires Lawful(chip) && k < PAGES && (settled == k || settled == k + 1) && k !in skipped
    requires flash[i] == Now(chip, start[i], image[i], skipped, settled, i)
    requires page == image[256 * k..256 * k + 256]
    ensures WritePage(chip, flash, 256 * k, page)[i] == Now(chip, start[i], image[i], skipped, k + 1, i)
  {
    WrittenByte(chip, flash, k, page, i);
    WriteByte(chip, flash[i], start[i], image[i], skipped, settled, k, i);
    if i / 256 == k {
      PageByte(image, k, page, i);
    }
  }

  /** Writing the next page, or the same page again, moves the closed form on. */
  lemma WriteMoves(chip: Chip, flash: seq<Byte>, start: seq<Byte>, image: seq<Byte>, skipped: set<nat>, settled: nat,
                   k: nat, page: seq<Byte>)
    requires |flash| == |start| == |image| == IMAGE && |page| == PAGE
    requires Lawful(chip) && k < PAGES && (settled == k || settled == k + 1) && k !in skipped
    requires flash == Layout(chip, start, image, skipped, settled)
    requires page == image[256 * k..256 * k + 256]
    ensures WritePage(chip, flash, 256 * k, page) == Layout(chip, start, image, skipped, k + 1)
  {
    forall i | 0 <= i < IMAGE
      ensures WritePage(chip, flash, 256 * k, page)[i] == Now(chip, start[i], image[i], skipped, k + 1, i)
    {
      MovedByte(chip, flash, start, image, skipped, settled, k, page, i);
    }
  }

  /** A page passed over leaves the flash as it was, and the closed form says so. */
  lemma SkipMoves(chip: Chip, flash: seq<Byte>, start: seq<Byte>, image: seq<Byte>, skipped: set<nat>, settled: nat)
    requires |flash| == |start| == |image|
    requires flash == Layout(chip, start, image, skipped, settled)
    ensures flash == Layout(chip, start, image, skipped + {settled}, settled + 1)
  {
    var next := Layout(chip, start, image, skipped + {settled}, settled + 1);
    forall i | 0 <= i < |flash|
      ensures flash[i] == next[i]
    {
    }
  }

  /* ------------------------------------------------------- every step keeps it */

  function Summed(address: nat): nat {
    if address < SUMMED then address else SUMMED
  }

  /** Where the page being gathered starts: a page just completed is still the one in RAM. */
  function PageStart(address: nat): (from: nat)
    ensures from <= address <= from + 256
  {
    if address % 256 == 0 && address != 0 then address - 256 else address / 256 * 256
  }

  /** The page in RAM holds the peer's bytes, up to the current address. */
  ghost predicate Gathered(b: Board, image: seq<Byte>)
    requires Shape(b) && |image| == IMAGE
  {
    b.page[..b.address - PageStart(b.address)] == image[PageStart(b.address)..b.address]
  }

  ghost predicate Progress(w: World) {
    var k := w.board.address / 256;
    && (if AtPageEnd(w.board) then w.settled == k || (w.settled == k - 1 && w.board.byteDone) else w.settled == k)
    && (forall p :: p in w.skipped ==> p < w.settled)
    && (AtPageEnd(w.board) ==> k - 1 !in w.skipped)
    && (!w.board.byteDone ==> w.board.address < IMAGE)
  }

  ghost predicate PullInv(chip: Chip, image: seq<Byte>, w: World)
    requires Shape(w.board) && |image| == |w.start| == IMAGE
  {
    && Progress(w)
    && Gathered(w.board, image)
    && w.board.flash == Layout(chip, w.start, image, w.skipped, w.settled)
    && w.board.checksum == Sum(chip, CRC_START, image[..Summed(w.board.address)])
  }

  /** A pull that completed: the flash is the closed form, and it passed its own checksum. */
  ghost predicate Completed(chip: Chip, image: seq<Byte>, w: World)
    requires Shape(w.board) && |image| == |w.start| == IMAGE
  {
    && w.board.flash == Layout(chip, w.start, image, w.skipped, PAGES)
    && (forall p :: p in w.skipped ==> p < PAGES)
    && Sum(chip, CRC_START, w.board.flash[..SUMMED]) == Sum(chip, CRC_START, image[..SUMMED])
    && !w.board.dirty
  }

  ghost predicate LinkInv(w: World) {
    && w.answered <= w.requested
    && forall a :: a in w.requested ==> a % 4 == 0 && a < IMAGE
  }

  ghost predicate Inv(chip: Chip, image: seq<Byte>, w: World) {
    && Lawful(chip) && |image| == |w.start| == IMAGE && Shape(w.board) && LinkInv(w)
    && (w.board.inProgress ==> w.board.source == Pull)
    && (w.board.inProgress && !Over(w.board) ==> PullInv(chip, image, w))
    && (w.board.rebooting && !w.board.inRom ==> Completed(chip, image, w))
    && !(w.board.rebooting && w.board.inRom)
  }

  lemma {:induction false} SumConcat(chip: Chip, crc: Word, a: seq<Byte>, b: seq<Byte>)
    ensures Sum(chip, crc, a + b) == Sum(chip, Sum(chip, crc, a), b)
    decreases |b|
  {
    if b == [] {
      assert a + b == a;
    } else {
      assert (a + b)[..|a + b| - 1] == a + b[..|b| - 1];
      SumConcat(chip, crc, a, b[..|b| - 1]);
    }
  }

  lemma PageStartNext(a: nat, from: nat)
    requires a % 4 == 0 && from == a / 256 * 256
    ensures PageStart(a + 4) == from && a % 256 == a - from && a - from + 4 <= 256
    ensures PageStart(a) == from || a == from
  {
  }

  lemma GatherMore(page: seq<Byte>, a: nat, image: seq<Byte>)
    requires |page| == 256 && |image| == IMAGE && a % 4 == 0 && a + 4 <= IMAGE
    requires page[..a - PageStart(a)] == image[PageStart(a)..a]
    ensures a % 256 + 4 <= 256
    ensures Patch(page, a % 256, image[a..a + 4])[..a + 4 - PageStart(a + 4)] == image[PageStart(a + 4)..a + 4]
  {
    var from := a / 256 * 256;
    PageStartNext(a, from);
    assert page[..a - from] == image[from..a];
    PatchGathers(page, a - from, image, from, a);
  }

  lemma ResponseGathers(b: Board, image: seq<Byte>, t: Board)
    requires Shape(b) && |image| == IMAGE && Gathered(b, image) && b.address + 4 <= IMAGE
    requires Shape(t) && t.address == b.address + 4
    requires t.page == Patch(b.page, b.address % 256, image[b.address..b.address + 4])
    ensures Gathered(t, image)
  {
    GatherMore(b.page, b.address, image);
  }

  lemma PatchGathers(page: seq<Byte>, n: nat, image: seq<Byte>, from: nat, a: nat)
    requires n + 4 <= |page| && from + n == a && a + 4 <= |image|
    requires page[..n] == image[from..a]
    ensures Patch(page, n, image[a..a + 4])[..n + 4] == image[from..a + 4]
  {
    assert Patch(page, n, image[a..a + 4])[..n + 4] == page[..n] + image[a..a + 4];
    assert image[from..a + 4] == image[from..a] + image[a..a + 4];
  }

  lemma ResponseSums(chip: Chip, image: seq<Byte>, a: nat)
    requires |image| == IMAGE && a % 4 == 0 && a + 4 <= IMAGE
    ensures Sum(chip, CRC_START, image[..Summed(a + 4)]) ==
            if a < SUMMED then Sum(chip, Sum(chip, CRC_START, image[..a]), image[a..a + 4])
            else Sum(chip, CRC_START, image[..Summed(a)])
  {
    if a < SUMMED {
      SumConcat(chip, CRC_START, image[..a], image[a..a + 4]);
      assert image[..a] + image[a..a + 4] == image[..a + 4];
    }
  }

  lemma ResponseProgress(w: World, t: World)
    requires Shape(w.board) && Progress(w) && w.board.address + 4 <= IMAGE
    requires t.board.address == w.board.address + 4 && t.board.byteDone
    requires var k := w.board.address / 256;
             if AtPageEnd(w.board) && w.settled < k
             then t.settled == k && t.skipped == w.skipped + {k - 1}
             else t.settled == w.settled && t.skipped == w.skipped
    ensures Progress(t)
  {
  }

  /** What a delivered word does to the account, and to the board's fields outside the pull's own data. */
  lemma DeliveredIs(chip: Chip, w: World, a: nat, word: seq<Byte>, now: Clock)
    requires Shape(w.board) && Progress(w) && |word| == 4 && MayPull(w.board) && a == w.board.address
    ensures var t := DeliverWord(chip, w, a, word, now);
            var k := a / 256;
            && t.board == Response(chip, w.board, a, word, now)
            && t == w.(board := t.board, settled := t.settled, skipped := t.skipped)
            && t.board.flash == w.board.flash && t.board.address == a + 4 && t.board.byteDone
            && (if AtPageEnd(w.board) && w.settled < k
                then t.settled == k == w.settled + 1 && t.skipped == w.skipped + {k - 1}
                else t.settled == w.settled && t.skipped == w.skipped)
  {
  }

  lemma ResponseKeeps(chip: Chip, image: seq<Byte>, w: World, a: nat, now: Clock)
    requires Inv(chip, image, w) && !Over(w.board) && MayPull(w.board)
    requires a == w.board.address && a + 4 <= IMAGE
    ensures Inv(chip, image, DeliverWord(chip, w, a, image[a..a + 4], now))
  {
    var t := DeliverWord(chip, w, a, image[a..a + 4], now);
    DeliveredIs(chip, w, a, image[a..a + 4], now);
    ResponseProgress(w, t);
    ResponseInv(chip, image, w, t, now, AtPageEnd(w.board) && w.settled < a / 256);
  }

  lemma ResponseInv(chip: Chip, image: seq<Byte>, w: World, t: World, now: Clock, early: bool)
    requires Lawful(chip) && |image| == |w.start| == IMAGE && Shape(w.board) && LinkInv(w)
    requires PullInv(chip, image, w) && !Over(w.board) && MayPull(w.board)
    requires w.board.address + 4 <= IMAGE && Progress(t)
    requires t.board == Response(chip, w.board, w.board.address, image[w.board.address..w.board.address + 4], now)
    requires t == w.(board := t.board, settled := t.settled, skipped := t.skipped) && t.board.flash == w.board.flash
    requires if early then t.settled == w.settled + 1 && t.skipped == w.skipped + {w.settled}
             else t.settled == w.settled && t.skipped == w.skipped
    ensures Inv(chip, image, t)
  {
    ResponseBoard(chip, image, w.board, t.board, now);
    ResponseFlash(chip, image, w, t, early);
    PullingInv(chip, image, w, t);
  }

  lemma PullingInv(chip: Chip, image: seq<Byte>, w: World, t: World)
    requires Lawful(chip) && |image| == |w.start| == |t.start| == IMAGE && Shape(t.board)
    requires LinkInv(w) && t.requested == w.requested && t.answered == w.answered
    requires MayPull(t.board) && !Over(t.board) && PullInv(chip, image, t)
    ensures Inv(chip, image, t)
  {
  }

  lemma ResponseBoard(chip: Chip, image: seq<Byte>, b: Board, t: Board, now: Clock)
    requires Shape(b) && |image| == IMAGE && MayPull(b) && b.address + 4 <= IMAGE && Gathered(b, image)
    requires b.checksum == Sum(chip, CRC_START, image[..Summed(b.address)])
    requires t == Response(chip, b, b.address, image[b.address..b.address + 4], now)
    ensures Shape(t) && Gathered(t, image) && t.checksum == Sum(chip, CRC_START, image[..Summed(t.address)])
    ensures MayPull(t) && Over(t) == Over(b)
  {
    ResponseSums(chip, image, b.address);
    assert Shape(t);
    assert Gathered(t, image) by {
      ResponseGathers(b, image, t);
    }
  }

  lemma ResponseFlash(chip: Chip, image: seq<Byte>, w: World, t: World, early: bool)
    requires |image| == |w.start| == |w.board.flash| == IMAGE
    requires w.board.flash == Layout(chip, w.start, image, w.skipped, w.settled)
    requires t.board.flash == w.board.flash && t.start == w.start
    requires if early then t.settled == w.settled + 1 && t.skipped == w.skipped + {w.settled}
             else t.settled == w.settled && t.skipped == w.skipped
    ensures t.board.flash == Layout(chip, t.start, image, t.skipped, t.settled)
  {
    if early {
      SkipMoves(chip, w.board.flash, w.start, image, w.skipped, w.settled);
    }
  }

  lemma AbandonKeeps(chip: Chip, image: seq<Byte>, w: World)
    requires Inv(chip, image, w) && !Over(w.board)
    ensures Inv(chip, image, w.(board := Abandon(w.board)))
  {
  }

  /** Writing the gathered page, in the world's account of it. */
  function Written(chip: Chip, w: World): World
    requires Shape(w.board)
  {
    w.(board := WriteGathered(chip, w.board), settled := if AtPageEnd(w.board) then w.board.address / 256 else w.settled)
  }

  lemma PageIs(b: Board, image: seq<Byte>, k: nat)
    requires Shape(b) && |image| == IMAGE && Gathered(b, image) && AtPageEnd(b) && b.address == 256 * k + 256
    ensures b.page == image[256 * k..256 * k + 256]
  {
    assert b.page[..256] == b.page;
  }

  lemma WriteKeeps(chip: Chip, image: seq<Byte>, w: World)
    requires Lawful(chip)
    requires |image| == |w.start| == IMAGE && Shape(w.board) && PullInv(chip, image, w)
    ensures Shape(Written(chip, w).board) && PullInv(chip, image, Written(chip, w))
    ensures AtPageEnd(w.board) ==> Written(chip, w).settled == w.board.address / 256
  {
    if AtPageEnd(w.board) {
      var k := EndOfPage(w);
      PageIs(w.board, image, k);
      WriteMoves(chip, w.board.flash, w.start, image, w.skipped, w.settled, k, w.board.page);
      WrittenIs(chip, w, k);
      WrittenKeeps(chip, image, w, Written(chip, w), k, Written(chip, w).board.flash);
    }
  }

  /** The page just gathered is the next to settle, or settled already. */
  lemma EndOfPage(w: World) returns (k: nat)
    requires Shape(w.board) && Progress(w) && AtPageEnd(w.board)
    ensures w.board.address == 256 * k + 256 && k < PAGES
    ensures (w.settled == k || w.settled == k + 1) && k !in w.skipped
  {
    k := w.board.address / 256 - 1;
  }

  lemma WrittenIs(chip: Chip, w: World, k: nat)
    requires Shape(w.board) && AtPageEnd(w.board) && w.board.address == 256 * k + 256
    ensures Written(chip, w)
         == w.(board := w.board.(flash := WritePage(chip, w.board.flash, 256 * k, w.board.page), dirty := true), settled := k + 1)
  {
  }

  lemma WrittenKeeps(chip: Chip, image: seq<Byte>, w: World, t: World, k: nat, after: seq<Byte>)
    requires |image| == |w.start| == |after| == IMAGE && Shape(w.board)
    requires AtPageEnd(w.board) && w.board.address == 256 * k + 256
    requires Progress(w) && Gathered(w.board, image)
    requires w.board.checksum == Sum(chip, CRC_START, image[..Summed(w.board.address)])
    requires after == Layout(chip, w.start, image, w.skipped, k + 1)
    requires t == w.(board := w.board.(flash := after, dirty := true), settled := k + 1)
    ensures PullInv(chip, image, t)
  {
    GatheredSame(w.board, t.board, image);
    WrittenProgress(w, t, k + 1);
  }

  lemma WrittenProgress(w: World, t: World, k: nat)
    requires Progress(w) && AtPageEnd(w.board) && w.board.address == 256 * k
    requires t.board.address == w.board.address && t.board.byteDone == w.board.byteDone
    requires t.skipped == w.skipped && t.settled == k
    ensures Progress(t)
  {
  }

  lemma GatheredSame(b: Board, t: Board, image: seq<Byte>)
    requires Shape(b) && Shape(t) && |image| == IMAGE && Gathered(b, image)
    requires t.address == b.address && t.page == b.page
    ensures Gathered(t, image)
  {
  }

  lemma FinishKeeps(chip: Chip, image: seq<Byte>, w: World)
    requires Inv(chip, image, w) && !Over(w.board) && w.board.inProgress
    requires w.board.address == IMAGE && w.settled == PAGES
    ensures Inv(chip, image, w.(board := Finish(chip, w.board)))
  {
  }

  /** A request goes out, or is refused: only the link and the clock move. */
  lemma RequestKeeps(chip: Chip, image: seq<Byte>, w: World, now: Clock, queued: bool)
    requires Inv(chip, image, w) && !Over(w.board) && w.board.inProgress && w.board.address < IMAGE
    requires AtPageEnd(w.board) ==> w.settled == w.board.address / 256
    ensures Inv(chip, image, w.(board := Request(w.board, now, queued),
                                requested := w.requested + if queued then {w.board.address} else {}))
  {
    GatheredSame(w.board, Request(w.board, now, queued), image);
  }

  lemma WriteInv(chip: Chip, image: seq<Byte>, w: World)
    requires Inv(chip, image, w) && !Over(w.board) && w.board.inProgress
    ensures Inv(chip, image, Written(chip, w))
    ensures AtPageEnd(w.board) ==> Written(chip, w).settled == w.board.address / 256
    ensures !Over(Written(chip, w).board) && Written(chip, w).board.inProgress
    ensures Written(chip, w).board.address == w.board.address && Written(chip, w).requested == w.requested
  {
    WriteKeeps(chip, image, w);
  }

  lemma TickKeeps(chip: Chip, image: seq<Byte>, w: World, now: Clock, full: bool, queued: bool)
    requires Inv(chip, image, w) && !Over(w.board)
    ensures Inv(chip, image, Step(chip, image, w, Tick(now, full, queued)))
  {
    var b := w.board;
    var t := Step(chip, image, w, Tick(now, full, queued));
    if !MayPull(b) {
      assert t == w;
    } else if !b.byteDone {
      if RequestLost(b, now) {
        RequestKeeps(chip, image, w, now, queued);
        assert t == w.(board := Request(b, now, queued), requested := w.requested + if queued then {b.address} else {});
      } else {
        assert t == w;
      }
    } else if full {
      assert t == w;
    } else {
      WriteInv(chip, image, w);
      var v := Written(chip, w);
      if b.address >= IMAGE {
        FinishKeeps(chip, image, v);
        assert t == v.(board := Finish(chip, v.board));
      } else {
        RequestKeeps(chip, image, v, now, queued);
        assert t == v.(board := Request(v.board, now, queued), requested := v.requested + if queued then {b.address} else {});
      }
    }
  }

  lemma StartKeeps(chip: Chip, image: seq<Byte>, w: World, now: Clock)
    requires Inv(chip, image, w) && !Over(w.board) && !w.board.inProgress
    ensures Inv(chip, image, Step(chip, image, w, Heartbeat(now, true)))
  {
    assert image[..0] == [];
  }

  lemma DeliverKeeps(chip: Chip, image: seq<Byte>, w: World, a: nat, now: Clock)
    requires Inv(chip, image, w) && !Over(w.board) && a + 4 <= IMAGE
    ensures Inv(chip, image, DeliverWord(chip, w, a, image[a..a + 4], now))
  {
    if MayPull(w.board) {
      if a == w.board.address {
        ResponseKeeps(chip, image, w, a, now);
      } else {
        AbandonKeeps(chip, image, w);
      }
    }
  }

  lemma TickStep(chip: Chip, image: seq<Byte>, w: World, e: Event)
    requires Inv(chip, image, w) && !Over(w.board) && e.Tick?
    ensures Inv(chip, image, Step(chip, image, w, e))
  {
    TickKeeps(chip, image, w, e.now, e.full, e.queued);
  }

  lemma DeliverStep(chip: Chip, image: seq<Byte>, w: World, e: Event)
    requires Inv(chip, image, w) && !Over(w.board) && e.Deliver?
    ensures Inv(chip, image, Step(chip, image, w, e))
  {
    if e.address in w.answered && e.address + 4 <= IMAGE {
      DeliverKeeps(chip, image, w, e.address, e.now);
      DeliverStepIs(chip, image, w, e.address, e.now);
      SameInv(chip, image, DeliverWord(chip, w, e.address, image[e.address..e.address + 4], e.now),
              Step(chip, image, w, e));
    } else {
      DeliverIgnored(chip, image, w, e);
      SameInv(chip, image, w, Step(chip, image, w, e));
    }
  }

  lemma SameInv(chip: Chip, image: seq<Byte>, t: World, u: World)
    requires Inv(chip, image, t) && t == u
    ensures Inv(chip, image, u)
  {
  }

  lemma DeliverIgnored(chip: Chip, image: seq<Byte>, w: World, e: Event)
    requires Shape(w.board) && |image| == IMAGE && !Over(w.board) && e.Deliver?
    requires e.address !in w.answered || e.address + 4 > IMAGE
    ensures Step(chip, image, w, e) == w
  {
  }

  lemma HeartbeatStep(chip: Chip, image: seq<Byte>, w: World, e: Event)
    requires Inv(chip, image, w) && !Over(w.board) && e.Heartbeat?
    ensures Inv(chip, image, Step(chip, image, w, e))
  {
    if e.wanted && !w.board.inProgress {
      StartKeeps(chip, image, w, e.now);
    }
  }

  lemma LinkStep(chip: Chip, image: seq<Byte>, w: World, e: Event)
    requires Inv(chip, image, w) && !Over(w.board) && (e.Answer? || e.Drain? || e.Watch? || e.PeerSeen?)
    ensures Inv(chip, image, Step(chip, image, w, e))
  {
    AbandonKeeps(chip, image, w);
    DrainKeeps(chip, image, w);
    if e.PeerSeen? {
      PeerKeeps(chip, image, w, e.present);
    }
  }

  /** Every step of the board, the link and the clock keeps the account true. */
  lemma StepKeeps(chip: Chip, image: seq<Byte>, w: World, e: Event)
    requires Inv(chip, image, w)
    ensures Inv(chip, image, Step(chip, image, w, e))
  {
    if !Over(w.board) {
      match e {
        case Tick(_, _, _) => TickStep(chip, image, w, e);
        case Deliver(_, _) => DeliverStep(chip, image, w, e);
        case Heartbeat(_, _) => HeartbeatStep(chip, image, w, e);
        case _ => LinkStep(chip, image, w, e);
      }
    }
  }

  lemma PeerKeeps(chip: Chip, image: seq<Byte>, w: World, present: bool)
    requires Inv(chip, image, w)
    ensures Inv(chip, image, w.(board := w.board.(peerPresent := present)))
  {
  }

  lemma DrainKeeps(chip: Chip, image: seq<Byte>, w: World)
    requires Inv(chip, image, w)
    ensures Inv(chip, image, w.(requested := {}, answered := {}))
  {
  }

  /* -------------------------------------------------------------- every run */

  /** A board with any flash at all, nothing in progress and nothing on the link. */
  function Idle(flash: seq<Byte>, page: seq<Byte>, peerPresent: bool): World
    requires |flash| == IMAGE && |page| == PAGE
  {
    World(Board(flash, page, 0, 0, false, false, NoSource, false, 0, 0, peerPresent, false, false),
          {}, {}, flash, 0, {})
  }

  ghost function Run(chip: Chip, image: seq<Byte>, w: World, events: seq<Event>): (t: World)
    requires Inv(chip, image, w)
    ensures Inv(chip, image, t)
    decreases |events|
  {
    if events == [] then w
    else
      StepKeeps(chip, image, w, events[0]);
      Run(chip, image, Step(chip, image, w, events[0]), events[1..])
  }

  /** When the closed form is the image: what each byte must already be where a page was passed over. */
  ghost predicate Repairs(chip: Chip, start: seq<Byte>, image: seq<Byte>, skipped: set<nat>)
    requires |start| == |image|
  {
    forall i {:trigger image[i]} :: 0 <= i < |image| ==>
      if SectorOf(i) !in skipped then i / 256 in skipped ==> image[i] == ONES
      else if i / 256 in skipped then start[i] == image[i]
      else chip.and(start[i], image[i]) == image[i]
  }

  lemma LayoutIsImage(chip: Chip, start: seq<Byte>, image: seq<Byte>, skipped: set<nat>)
    requires Lawful(chip) && |start| == |image| == IMAGE
    ensures Layout(chip, start, image, skipped, PAGES) == image <==> Repairs(chip, start, image, skipped)
  {
    var r := Layout(chip, start, image, skipped, PAGES);
    forall i | 0 <= i < IMAGE
      ensures r[i] == image[i] <==>
              if SectorOf(i) !in skipped then i / 256 in skipped ==> image[i] == ONES
              else if i / 256 in skipped then start[i] == image[i]
              else chip.and(start[i], image[i]) == image[i]
    {
      assert SectorOf(i) < PAGES && i / 256 < PAGES;
    }
    if r == image {
      forall i | 0 <= i < IMAGE
        ensures if SectorOf(i) !in skipped then i / 256 in skipped ==> image[i] == ONES
                else if i / 256 in skipped then start[i] == image[i]
                else chip.and(start[i], image[i]) == image[i]
      {
        assert r[i] == image[i];
      }
    }
  }

  lemma NothingSkipped(chip: Chip, start: seq<Byte>, image: seq<Byte>)
    requires |start| == |image| == IMAGE
    ensures Repairs(chip, start, image, {})
  {
  }

  /**
    * A pull that completes, after any run at all: the flash is in closed form,
    * its checksum agreed with the peer's image, and it is the peer's image if
    * and only if the pages passed over happen not to matter; in particular
    * whenever none was, whatever earlier pulls had left in flash.
    */
  lemma CompletedPull(chip: Chip, image: seq<Byte>, w: World, events: seq<Event>)
    requires Inv(chip, image, w) && Run(chip, image, w, events).board.rebooting
    ensures var t := Run(chip, image, w, events);
            && t.board.flash == Layout(chip, t.start, image, t.skipped, PAGES)
            && Sum(chip, CRC_START, t.board.flash[..SUMMED]) == Sum(chip, CRC_START, image[..SUMMED])
            && (t.board.flash == image <==> Repairs(chip, t.start, image, t.skipped))
            && (t.skipped == {} ==> t.board.flash == image)
  {
    var t := Run(chip, image, w, events);
    LayoutIsImage(chip, t.start, image, t.skipped);
    NothingSkipped(chip, t.start, image);
  }

  /** A pull that passed over no page passes its own checksum: its last pass reboots and never hands the board to ROM. */
  lemma LastPassSucceeds(chip: Chip, image: seq<Byte>, w: World, now: Clock, queued: bool)
    requires Inv(chip, image, w) && !Over(w.board) && MayPull(w.board) && w.board.byteDone
    requires w.board.address == IMAGE && w.skipped == {}
    ensures Step(chip, image, w, Tick(now, false, queued)).board.rebooting
    ensures !Step(chip, image, w, Tick(now, false, queued)).board.inRom
    ensures Step(chip, image, w, Tick(now, false, queued)).board.flash == image
  {
    WriteInv(chip, image, w);
    var v := Written(chip, w);
    LayoutIsImage(chip, v.start, image, {});
    NothingSkipped(chip, v.start, image);
    assert v.board.flash == image;
  }

  /* ------------------------------------------------ answers that arrive early */

  /** This step takes an answer before the page behind it is written. */
  predicate EarlyAt(w: World, e: Event) {
    e.Deliver? && e.address in w.answered && e.address + 4 <= IMAGE && !Over(w.board) && Early(w, e.address)
  }

  /** This step starts a pull. */
  predicate StartsAt(w: World, e: Event) {
    e.Heartbeat? && e.wanted && !w.board.inProgress && !Over(w.board)
  }

  /** Whether the pull a run ends in took an answer early, one having done so already or not. */
  ghost predicate EarlySince(chip: Chip, image: seq<Byte>, w: World, events: seq<Event>, already: bool)
    requires Inv(chip, image, w)
    decreases |events|
  {
    if events == [] then already
    else
      StepKeeps(chip, image, w, events[0]);
      EarlySince(chip, image, Step(chip, image, w, events[0]), events[1..],
                 !StartsAt(w, events[0]) && (already || EarlyAt(w, events[0])))
  }

  lemma EarlyStep(chip: Chip, image: seq<Byte>, w: World, e: Event)
    requires Inv(chip, image, w)
    ensures Step(chip, image, w, e).skipped != {} <==> !StartsAt(w, e) && (w.skipped != {} || EarlyAt(w, e))
  {
  }

  /** A page is passed over exactly when an answer is taken early since the pull started. */
  lemma {:induction false} SkippedIsEarly(chip: Chip, image: seq<Byte>, w: World, events: seq<Event>)
    requires Inv(chip, image, w)
    ensures Run(chip, image, w, events).skipped != {} <==> EarlySince(chip, image, w, events, w.skipped != {})
    decreases |events|
  {
    if events != [] {
      StepKeeps(chip, image, w, events[0]);
      EarlyStep(chip, image, w, events[0]);
      SkippedIsEarly(chip, image, Step(chip, image, w, events[0]), events[1..]);
    }
  }

  lemma IdleGood(chip: Chip, image: seq<Byte>, flash: seq<Byte>, page: seq<Byte>, peerPresent: bool)
    requires Lawful(chip) && |image| == |flash| == IMAGE && |page| == PAGE
    ensures Inv(chip, image, Idle(flash, page, peerPresent)) && Asked(Idle(flash, page, peerPresent))
  {
  }

  /**
    * However requests and answers are lost, repeated and reordered, whatever
    * enqueues are refused, and whatever abandoned pulls left in flash and on the
    * link: a pull that completes leaves the peer's image if it took no answer
    * before the page behind it was written. If it did take one, it leaves the
    * image exactly when the pages passed over happen not to matter.
    */
  lemma PullCopiesImage(chip: Chip, image: seq<Byte>, flash: seq<Byte>, page: seq<Byte>, peerPresent: bool,
                        events: seq<Event>)
    requires Lawful(chip) && |image| == |flash| == IMAGE && |page| == PAGE
    ensures Inv(chip, image, Idle(flash, page, peerPresent))
    ensures var w := Idle(flash, page, peerPresent);
            var t := Run(chip, image, w, events);
            t.board.rebooting ==>
              if EarlySince(chip, image, w, events, false)
              then t.skipped != {} && (t.board.flash == image <==> Repairs(chip, t.start, image, t.skipped))
              else t.board.flash == image
  {
    IdleGood(chip, image, flash, page, peerPresent);
    var w := Idle(flash, page, peerPresent);
    if Run(chip, image, w, events).board.rebooting {
      SkippedIsEarly(chip, image, w, events);
      CompletedPull(chip, image, w, events);
    }
  }

  /* ------------------------------------------- when no answer can arrive early */

  /** Nothing on the link is for a word the pull has not asked for yet. */
  ghost predicate Asked(w: World) {
    forall a {:trigger a in w.requested} :: a in w.requested && MayPull(w.board) ==>
      a < w.board.address || (a == w.board.address && (AtPageEnd(w.board) ==> w.settled == a / 256))
  }

  /** A pull starts only over a link that holds nothing of an earlier one. */
  ghost predicate StartsDrained(w: World, e: Event) {
    StartsAt(w, e) ==> w.requested == {}
  }

  lemma AskedStep(chip: Chip, image: seq<Byte>, w: World, e: Event)
    requires Inv(chip, image, w) && Asked(w) && StartsDrained(w, e)
    ensures !EarlyAt(w, e)
    ensures Asked(Step(chip, image, w, e))
  {
  }

  ghost predicate AlwaysDrained(chip: Chip, image: seq<Byte>, w: World, events: seq<Event>)
    requires Inv(chip, image, w)
    decreases |events|
  {
    events == [] ||
    (StepKeeps(chip, image, w, events[0]);
     StartsDrained(w, events[0]) && AlwaysDrained(chip, image, Step(chip, image, w, events[0]), events[1..]))
  }

  /** In particular none does when each pull starts over a link drained of the one before. */
  lemma {:induction false} DrainedIsNeverEarly(chip: Chip, image: seq<Byte>, w: World, events: seq<Event>)
    requires Inv(chip, image, w) && Asked(w) && AlwaysDrained(chip, image, w, events)
    ensures !EarlySince(chip, image, w, events, false)
    decreases |events|
  {
    if events != [] {
      StepKeeps(chip, image, w, events[0]);
      AskedStep(chip, image, w, events[0]);
      DrainedIsNeverEarly(chip, image, Step(chip, image, w, events[0]), events[1..]);
    }
  }

  lemma {:induction false} RunConcat(chip: Chip, image: seq<Byte>, w: World, a: seq<Event>, b: seq<Event>)
    requires Inv(chip, image, w)
    ensures Run(chip, image, w, a + b) == Run(chip, image, Run(chip, image, w, a), b)
    decreases |a|
  {
    if a == [] {
      assert a + b == b;
    } else {
      assert (a + b)[1..] == a[1..] + b;
      StepKeeps(chip, image, w, a[0]);
      RunConcat(chip, image, Step(chip, image, w, a[0]), a[1..], b);
    }
  }

  /** A pull ready for its next word. */
  ghost predicate Ready(chip: Chip, image: seq<Byte>, w: World) {
    && Inv(chip, image, w) && !Over(w.board) && MayPull(w.board) && w.board.byteDone && w.board.peerPresent
  }

  /** What one word's worth of steps does. */
  ghost predicate Advanced(w: World, t: World, n: nat) {
    && t.board.address == n
    && t.skipped == w.skipped && t.start == w.start
    && w.answered <= t.answered
    && (forall a {:trigger a in t.answered} :: w.board.address <= a < n && a % 4 == 0 ==> a in t.answered)
    && (n % 256 == 0 && n > w.board.address ==> t.settled == n / 256 - 1)
  }

  /** Ask, be answered, take the word: nothing lost. */
  function WordEvents(a: nat): seq<Event> {
    [Tick(0, false, true), Answer(a), Deliver(a, 0)]
  }

  lemma AskStep(chip: Chip, image: seq<Byte>, w: World)
    requires Ready(chip, image, w) && w.board.address < IMAGE
    ensures var t := Step(chip, image, w, Tick(0, false, true));
            && Inv(chip, image, t) && !Over(t.board) && MayPull(t.board) && t.board.peerPresent
            && t.board.address == w.board.address && t.skipped == w.skipped && t.start == w.start
            && t.answered == w.answered && w.board.address in t.requested
            && t.settled == w.board.address / 256
  {
    StepKeeps(chip, image, w, Tick(0, false, true));
  }

  lemma AnswerStep(chip: Chip, image: seq<Byte>, w: World, a: nat)
    requires Inv(chip, image, w) && !Over(w.board) && a in w.requested && a < IMAGE
    ensures Inv(chip, image, Step(chip, image, w, Answer(a)))
    ensures Step(chip, image, w, Answer(a)) == w.(answered := w.answered + {a})
  {
    StepKeeps(chip, image, w, Answer(a));
  }

  lemma TakeStep(chip: Chip, image: seq<Byte>, w: World)
    requires Inv(chip, image, w) && !Over(w.board) && MayPull(w.board) && w.board.peerPresent
    requires w.board.address in w.answered && w.board.address + 4 <= IMAGE
    ensures var t := Step(chip, image, w, Deliver(w.board.address, 0));
            && Ready(chip, image, t)
            && t.board.address == w.board.address + 4 && t.start == w.start && t.answered == w.answered
            && (if Early(w, w.board.address)
                then t.skipped == w.skipped + {w.board.address / 256 - 1} && t.settled == w.board.address / 256
                else t.skipped == w.skipped && t.settled == w.settled)
  {
    StepKeeps(chip, image, w, Deliver(w.board.address, 0));
    TakenIs(chip, image, w, Step(chip, image, w, Deliver(w.board.address, 0)));
  }

  lemma TakenIs(chip: Chip, image: seq<Byte>, w: World, t: World)
    requires Shape(w.board) && Progress(w) && |image| == IMAGE && !Over(w.board) && MayPull(w.board)
    requires w.board.address in w.answered && w.board.address + 4 <= IMAGE
    requires t == Step(chip, image, w, Deliver(w.board.address, 0))
    ensures !Over(t.board) && MayPull(t.board) && t.board.byteDone && t.board.peerPresent == w.board.peerPresent
    ensures t.board.address == w.board.address + 4 && t.start == w.start && t.answered == w.answered
    ensures if Early(w, w.board.address)
            then t.skipped == w.skipped + {w.board.address / 256 - 1} && t.settled == w.board.address / 256
            else t.skipped == w.skipped && t.settled == w.settled
  {
    var a := w.board.address;
    DeliverStepIs(chip, image, w, a, 0);
    DeliveredIs(chip, w, a, image[a..a + 4], 0);
  }

  lemma DeliverStepIs(chip: Chip, image: seq<Byte>, w: World, a: nat, now: Clock)
    requires Shape(w.board) && |image| == IMAGE && !Over(w.board) && a in w.answered && a + 4 <= IMAGE
    ensures Step(chip, image, w, Deliver(a, now)) == DeliverWord(chip, w, a, image[a..a + 4], now)
  {
  }

  lemma OneWord(chip: Chip, image: seq<Byte>, w: World)
    requires Ready(chip, image, w) && w.board.address < IMAGE
    ensures var t := Run(chip, image, w, WordEvents(w.board.address));
            Ready(chip, image, t) && Advanced(w, t, w.board.address + 4)
  {
    var a := w.board.address;
    AskStep(chip, image, w);
    var w1 := Step(chip, image, w, Tick(0, false, true));
    AnswerStep(chip, image, w1, a);
    var w2 := Step(chip, image, w1, Answer(a));
    TakeStep(chip, image, w2);
    var w3 := Step(chip, image, w2, Deliver(a, 0));
    RunThree(chip, image, w, w1, w2, w3, WordEvents(a));
    WordAdvances(w, w3, a);
  }

  lemma WordAdvances(w: World, t: World, a: nat)
    requires w.board.address == a && a % 4 == 0 && t.board.address == a + 4
    requires t.skipped == w.skipped && t.start == w.start && t.answered == w.answered + {a} && t.settled == a / 256
    ensures Advanced(w, t, a + 4)
  {
    LastWordOfPage(a);
  }

  lemma LastWordOfPage(a: nat)
    requires a % 4 == 0
    ensures (a + 4) % 256 == 0 ==> a / 256 == (a + 4) / 256 - 1
  {
  }

  lemma RunThree(chip: Chip, image: seq<Byte>, w: World, w1: World, w2: World, w3: World, es: seq<Event>)
    requires |es| == 3 && Inv(chip, image, w) && Inv(chip, image, w1) && Inv(chip, image, w2) && Inv(chip, image, w3)
    requires w1 == Step(chip, image, w, es[0]) && w2 == Step(chip, image, w1, es[1]) && w3 == Step(chip, image, w2, es[2])
    ensures Run(chip, image, w, es) == w3
  {
    var e1, e2 := es[1..], es[2..];
    assert e1[1..] == e2 && e2[1..] == [];
    assert Run(chip, image, w2, e2) == w3;
    assert Run(chip, image, w1, e1) == w3;
  }

  lemma AdvancedOn(w: World, t: World, u: World, n: nat)
    requires Advanced(w, t, w.board.address + 4) && w.board.address % 4 == 0
    requires Advanced(t, u, n) && t.board.address <= n
    requires t.board.address == n ==> u == t
    ensures Advanced(w, u, n)
  {
    forall a {:trigger a in u.answered} | w.board.address <= a < n && a % 4 == 0
      ensures a in u.answered
    {
      if a < t.board.address {
        assert a in t.answered;
      }
    }
  }

  lemma WordsJoin(chip: Chip, image: seq<Byte>, w: World, t: World, first: seq<Event>, rest: seq<Event>, n: nat)
    requires Inv(chip, image, w) && w.board.address % 4 == 0
    requires t == Run(chip, image, w, first) && Advanced(w, t, w.board.address + 4) && t.board.address <= n
    requires t.board.address == n ==> rest == []
    requires Inv(chip, image, t) && Ready(chip, image, Run(chip, image, t, rest)) && Advanced(t, Run(chip, image, t, rest), n)
    ensures Ready(chip, image, Run(chip, image, w, first + rest)) && Advanced(w, Run(chip, image, w, first + rest), n)
  {
    RunConcat(chip, image, w, first, rest);
    AdvancedOn(w, t, Run(chip, image, t, rest), n);
  }

  lemma NextWord(a: nat, n: nat)
    requires a < n && a % 4 == 0 && n % 4 == 0
    ensures a + 4 <= n
  {
  }

  /** Word after word, up to any address. */
  lemma {:induction false} Words(chip: Chip, image: seq<Byte>, w: World, n: nat) returns (es: seq<Event>)
    requires Ready(chip, image, w) && w.board.address <= n <= IMAGE && n % 4 == 0
    ensures w.board.address == n ==> es == []
    ensures Ready(chip, image, Run(chip, image, w, es)) && Advanced(w, Run(chip, image, w, es), n)
    decreases n - w.board.address
  {
    if w.board.address == n {
      es := [];
    } else {
      var first := WordEvents(w.board.address);
      NextWord(w.board.address, n);
      OneWord(chip, image, w);
      var t := Run(chip, image, w, first);
      var rest := Words(chip, image, t, n);
      es := first + rest;
      WordsJoin(chip, image, w, t, first, rest, n);
    }
  }

  /** A pull starts, over a link that may still hold answers to an earlier one. */
  lemma StartStep(chip: Chip, image: seq<Byte>, w: World)
    requires Inv(chip, image, w) && !Over(w.board) && !w.board.inProgress && w.board.peerPresent
    ensures var t := Run(chip, image, w, [Heartbeat(0, true)]);
            && Ready(chip, image, t) && t.board.address == 0 && t.skipped == {} && t.answered == w.answered
  {
    StepKeeps(chip, image, w, Heartbeat(0, true));
    RunOne(chip, image, w, Heartbeat(0, true));
  }

  lemma RunOne(chip: Chip, image: seq<Byte>, w: World, e: Event)
    requires Inv(chip, image, w)
    ensures Run(chip, image, w, [e]) == Step(chip, image, w, e)
  {
    StepKeeps(chip, image, w, e);
    assert [e][1..] == [];
    assert Run(chip, image, Step(chip, image, w, e), []) == Step(chip, image, w, e);
  }

  /** A stray answer for a word the pull is past makes the board give the pull up. */
  lemma StrayStep(chip: Chip, image: seq<Byte>, w: World)
    requires Ready(chip, image, w) && 0 in w.answered && w.board.address != 0
    ensures var t := Run(chip, image, w, [Deliver(0, 0)]);
            && Inv(chip, image, t) && !Over(t.board) && !t.board.inProgress && t.board.peerPresent
            && t.answered == w.answered
  {
    StepKeeps(chip, image, w, Deliver(0, 0));
    RunOne(chip, image, w, Deliver(0, 0));
  }

  /** One pull given up part-way, and a second that has just gathered page `p`. */
  lemma SecondPull(chip: Chip, image: seq<Byte>, flash: seq<Byte>, page: seq<Byte>, p: nat) returns (es: seq<Event>)
    requires Lawful(chip) && |image| == |flash| == IMAGE && |page| == PAGE && p + 1 < PAGES
    ensures Inv(chip, image, Idle(flash, page, true))
    ensures var t := Run(chip, image, Idle(flash, page, true), es);
            && Ready(chip, image, t) && t.skipped == {}
            && t.board.address == 256 * (p + 1) && t.settled == p
            && 256 * (p + 1) in t.answered
  {
    IdleGood(chip, image, flash, page, true);
    var w0 := Idle(flash, page, true);
    var n := 256 * (p + 1);
    StartStep(chip, image, w0);
    var e1 := [Heartbeat(0, true)];
    var w1 := Run(chip, image, w0, e1);
    var e2 := Words(chip, image, w1, n + 4);
    var w2 := Run(chip, image, w1, e2);
    assert 0 in w2.answered && n in w2.answered;
    StrayStep(chip, image, w2);
    var e3 := [Deliver(0, 0)];
    var w3 := Run(chip, image, w2, e3);
    StartStep(chip, image, w3);
    var w4 := Run(chip, image, w3, e1);
    var e5 := Words(chip, image, w4, n);
    var w5 := Run(chip, image, w4, e5);
    RunConcat(chip, image, w3, e1, e5);
    RunConcat(chip, image, w2, e3, e1 + e5);
    RunConcat(chip, image, w1, e2, e3 + (e1 + e5));
    RunConcat(chip, image, w0, e1, e2 + (e3 + (e1 + e5)));
    es := e1 + (e2 + (e3 + (e1 + e5)));
  }

  /** From there, the answer left over from the first pull, and the rest of the second. */
  lemma FinishAfterEarly(chip: Chip, image: seq<Byte>, w: World, p: nat) returns (es: seq<Event>)
    requires Ready(chip, image, w) && w.skipped == {} && 1008 < p < 1023
    requires w.board.address == 256 * (p + 1) && w.settled == p && 256 * (p + 1) in w.answered
    ensures var t := Run(chip, image, w, es); t.board.rebooting && t.skipped == {p}
  {
    var n := 256 * (p + 1);
    var e1 := [Deliver(n, 0)];
    TakeStep(chip, image, w);
    RunOne(chip, image, w, Deliver(n, 0));
    var w1 := Run(chip, image, w, e1);
    assert w1.skipped == {p};
    var e2 := Words(chip, image, w1, IMAGE);
    var w2 := Run(chip, image, w1, e2);
    LastPassAfterSkip(chip, image, w2, p);
    var e3 := [Tick(0, false, false)];
    RunOne(chip, image, w2, Tick(0, false, false));
    RunConcat(chip, image, w1, e2, e3);
    RunConcat(chip, image, w, e1, e2 + e3);
    es := e1 + (e2 + e3);
  }

  /** The last sector is outside the checksum, so a page passed over there goes unnoticed. */
  lemma LastPassAfterSkip(chip: Chip, image: seq<Byte>, w: World, p: nat)
    requires Ready(chip, image, w) && w.board.address == IMAGE && w.skipped == {p} && 1008 < p < 1024
    ensures var t := Step(chip, image, w, Tick(0, false, false)); t.board.rebooting && t.skipped == {p}
  {
    WriteInv(chip, image, w);
    var v := Written(chip, w);
    var r := Layout(chip, v.start, image, {p}, PAGES);
    forall i | 0 <= i < SUMMED
      ensures r[i] == image[i]
    {
      assert SectorOf(i) < 1008 && i / 256 < 1008;
    }
    assert v.board.flash[..SUMMED] == image[..SUMMED];
  }

  /**
    * An early answer does lose a page: for any page of the last sector but its
    * first, and any peer image in which that page is not blank, there is a run
    * that gives one pull up, completes the next, and reboots into a flash that
    * is not the peer's image. The page was passed over, and is left erased.
    */
  lemma StaleAnswerLosesPage(chip: Chip, image: seq<Byte>, flash: seq<Byte>, page: seq<Byte>, p: nat, i: nat)
    returns (es: seq<Event>)
    requires Lawful(chip) && |image| == |flash| == IMAGE && |page| == PAGE && 1008 < p < 1023
    requires 256 * p <= i < 256 * (p + 1) && image[i] != ONES
    ensures Inv(chip, image, Idle(flash, page, true))
    ensures var t := Run(chip, image, Idle(flash, page, true), es);
            && t.board.rebooting
            && t.board.flash[i] == ONES
            && t.board.flash != image
  {
    var e1 := SecondPull(chip, image, flash, page, p);
    var w0 := Idle(flash, page, true);
    var w1 := Run(chip, image, w0, e1);
    var e2 := FinishAfterEarly(chip, image, w1, p);
    RunConcat(chip, image, w0, e1, e2);
    es := e1 + e2;
    CompletedPull(chip, image, w0, es);
    LostByte(chip, Run(chip, image, w0, es).start, image, p, i);
  }

  lemma LostByte(chip: Chip, start: seq<Byte>, image: seq<Byte>, p: nat, i: nat)
    requires |start| == |image| == IMAGE && 1008 < p < 1023 && 256 * p <= i < 256 * (p + 1)
    ensures Layout(chip, start, image, {p}, PAGES)[i] == ONES
  {
    assert SectorOf(i) == 1008 && i / 256 == p;
  }

  /* ------------------------------------------------------------ the machine */

  /** The board, its fields updated in place. */
  class PullingBoard {
    const flash: array<Byte>
    const page: array<Byte>
    var address: nat
    var checksum: Word
    var byteDone: bool
    var inProgress: bool
    var source: Source
    var dirty: bool
    var progressedAt: Clock
    var requestedAt: Clock
    var peerPresent: bool
    var rebooting: bool
    var inRom: bool

    ghost predicate Ok()
      reads this, flash, page
    {
      flash != page && Shape(State())
    }

    ghost function State(): Board
      reads this, flash, page
    {
      Board(flash[..], page[..], address, checksum, byteDone, inProgress, source, dirty, progressedAt, requestedAt,
            peerPresent, rebooting, inRom)
    }

    constructor (image: seq<Byte>)
      requires |image| == IMAGE
      ensures Ok() && fresh(flash) && fresh(page)
      ensures State() == Idle(image, page[..], false).board
    {
      flash := new Byte[IMAGE](i requires 0 <= i < IMAGE => image[i]);
      page := new Byte[PAGE](_ => 0);
      address, checksum, byteDone, inProgress, source, dirty := 0, 0, false, false, NoSource, false;
      progressedAt, requestedAt, peerPresent, rebooting, inRom := 0, 0, false, false, false;
      new;
      assert flash[..] == image;
    }

    method EraseRange(at: nat, n: nat)
      requires at + n <= flash.Length
      modifies flash
      ensures flash[..] == Erase(old(flash[..]), at, n)
    {
      forall i | at <= i < at + n {
        flash[i] := ONES;
      }
    }

    method ProgramPage(chip: Chip, at: nat)
      requires Ok() && at + PAGE <= IMAGE
      modifies flash
      ensures flash[..] == Program(chip, old(flash[..]), at, old(page[..]))
    {
      forall i | at <= i < at + PAGE {
        flash[i] := chip.and(flash[i], page[i - at]);
      }
    }

    method WriteFlashPage(chip: Chip, at: nat)
      requires Ok() && at + PAGE <= IMAGE && (at % 4096 == 0 ==> at + SECTOR <= IMAGE)
      modifies flash
      ensures var b := old(State()); Ok() && State() == b.(flash := WritePage(chip, b.flash, at, b.page))
    {
      if at % 4096 == 0 {
        EraseRange(at, SECTOR);
      }
      ProgramPage(chip, at);
    }

    method Recover()
      requires Ok()
      modifies this`inRom, flash
      ensures Ok() && State() == RecoverToRom(old(State()))
    {
      EraseRange(0, SECTOR);
      inRom := true;
    }

    method GiveUp()
      requires Ok()
      modifies this, flash
      ensures Ok() && State() == Abandon(old(State()))
    {
      if dirty && !peerPresent {
        Recover();
        return;
      }
      inProgress := false;
      source := NoSource;
      address := 0;
    }

    method RequestByte(now: Clock, queued: bool)
      requires Ok()
      modifies this`requestedAt, this`byteDone
      ensures Ok() && State() == Request(old(State()), now, queued)
    {
      requestedAt := now;
      if queued {
        byteDone := false;
      }
    }

    /** The checksum of the running image, as flash now holds it. */
    method SumFlash(chip: Chip) returns (crc: Word)
      requires Ok()
      ensures crc == Flip(Sum(chip, CRC_START, flash[..SUMMED]))
    {
      crc := CRC_START;
      var i := 0;
      while i < SUMMED
        invariant 0 <= i <= SUMMED
        invariant crc == Sum(chip, CRC_START, flash[..i])
      {
        crc := chip.iter(crc, flash[i]);
        assert flash[..i + 1][..i] == flash[..i];
        i := i + 1;
      }
      crc := Flip(crc);
    }

    method EndPull(chip: Chip)
      requires Ok()
      modifies this, flash
      ensures Ok() && State() == Finish(chip, old(State()))
    {
      inProgress := false;
      source := NoSource;
      checksum := Flip(checksum);
      var crc := SumFlash(chip);
      assert flash[..SUMMED] == old(flash[..])[..SUMMED];
      if crc != checksum {
        Recover();
      } else {
        dirty := false;
        rebooting := true;
      }
    }

    method WriteFinishedPage(chip: Chip)
      requires Ok()
      modifies this`dirty, flash
      ensures Ok() && State() == WriteGathered(chip, old(State()))
    {
      if address % 256 == 0 && address != 0 {
        PageBehind(address);
        var at := address - PAGE;
        ghost var was := State();
        assert AtPageEnd(was) && at == was.address - PAGE;
        WriteFlashPage(chip, at);
        ghost var after := State();
        dirty := true;
        GatheredIs(chip, was, at, after.flash);
        assert State() == after.(dirty := true);
      }
    }

    method UpgradeTask(chip: Chip, now: Clock, full: bool, queued: bool)
      requires Ok()
      modifies this, flash
      ensures Ok() && State() == Task(chip, old(State()), now, full, queued)
    {
      if !(inProgress && source == Pull) {
        return;
      }
      if !byteDone {
        if Since(now, requestedAt) >= REREQUEST_US {
          RequestByte(now, queued);
        }
        return;
      }
      if full {
        return;
      }
      WriteFinishedPage(chip);
      if address >= IMAGE {
        EndPull(chip);
      } else {
        RequestByte(now, queued);
      }
    }

    method HandleResponse(chip: Chip, at: nat, word: seq<Byte>, now: Clock)
      requires Ok() && |word| == 4
      modifies this, flash, page
      ensures State() == Response(chip, old(State()), at, word, now)
      ensures at < IMAGE || at != old(address) ==> Ok()
    {
      if !(inProgress && source == Pull) {
        return;
      }
      if at != address {
        GiveUp();
        return;
      }
      if at < SUMMED {
        checksum := SumWord(chip, checksum, word);
      }
      WordInPage(at);
      PutWord(at % 256, word);
      address := address + 4;
      byteDone := true;
      progressedAt := now;
    }

    method PutWord(offset: nat, word: seq<Byte>)
      requires offset + 4 <= page.Length && |word| == 4
      modifies page
      ensures page[..] == Patch(old(page[..]), offset, word)
    {
      forall i | 0 <= i < 4 {
        page[offset + i] := word[i];
      }
    }

    method SumWord(chip: Chip, start: Word, word: seq<Byte>) returns (crc: Word)
      ensures crc == Sum(chip, start, word)
    {
      crc := start;
      for i := 0 to |word|
        invariant crc == Sum(chip, start, word[..i])
      {
        crc := chip.iter(crc, word[i]);
        assert word[..i + 1][..i] == word[..i];
      }
      assert word[..|word|] == word;
    }

    method BeginPull(now: Clock)
      requires Ok()
      modifies this
      ensures Ok() && State() == StartPull(old(State()), now)
    {
      if inProgress {
        return;
      }
      inProgress := true;
      source := Pull;
      byteDone := true;
      address := 0;
      checksum := CRC_START;
      progressedAt := now;
    }
  }
}
