/** The match strategy of PlayGame: nine game states run by a state
    machine, which fetch a token, carry it to a slot, put it down and go for
    the next one. Each state's listener is a reference function from the
    game's fields and the interface snapshot (`PresetStartF`, `SearchF`,
    `DriveToSlotF`, ...) that the corresponding method is proved to follow,
    and the properties of the strategy are proved about those functions. */
module Game {
  import opened Util
  import opened Motion
  import Vision
  import GameMap
  import StateUtils
  import opened IoInterface

  /** The states the game registers, named after the listener they run. */
  datatype Phase =
    | Start | SearchSlot | DriveToSlot | PlaceToken | TurnToToken
    | SearchToken | DriveToToken | PickToken | TurnToSlot

  /** The name each state is registered under. */
  function PhaseName(p: Phase): string {
    match p
    case Start => "START"
    case SearchSlot => "SEARCH_SLOT"
    case DriveToSlot => "DRIVE_TO_SLOT"
    case PlaceToken => "PLACE_TOKEN"
    case TurnToToken => "TURN_TO_TOKEN"
    case SearchToken => "SEARCH_TOKEN"
    case DriveToToken => "DRIVE_TO_TOKEN"
    case PickToken => "PICK_TOKEN"
    case TurnToSlot => "TURN_TO_SLOT"
  }

  /** Distinct states are registered under distinct names. */
  lemma PhaseNamesDistinct(p: Phase, q: Phase)
    ensures PhaseName(p) == PhaseName(q) <==> p == q
  {
  }

  /** The number of arguments a state's listener takes: the two drive states
      take the marker to drive to, the others nothing. */
  function Arity(p: Phase): nat {
    if p == DriveToSlot || p == DriveToToken then 1 else 0
  }

  /** The active state and the arguments it will be run with. */
  datatype Request = Request(phase: Phase, args: seq<Vision.Marker>)

  /** `on_interrupt`: nothing, or the move-away continuation an obstacle
      leaves behind. */
  datatype Continuation = NoContinuation | MoveAway

  /** The fields of PlayGame that its states change; `searches['SLOTS']` and
      `searches['TOKENS']` are the two counters, `active` the state machine's
      active state with its arguments. */
  datatype Fields = Fields(hasToken: bool, slotSearches: int, tokenSearches: int, fromStart: bool,
                           doneCount: int, onInterrupt: Continuation, active: Option<Request>)

  /** How a listener ended: it returned, or it was stopped by an interrupt,
      an exception or the end of the scans. */
  datatype Ending = Finished | Stopped(stop: Stop)

  function EndingOf(err: Option<ErrorKind>): (e: Ending)
    ensures e.Finished? <==> err.None?
    ensures err.Some? ==> e == Stopped(Failed(err.value))
  {
    if err.Some? then Stopped(Failed(err.value)) else Finished
  }

  /** One activation of the active state: the listener's outcome as the state
      machine classifies it, or the end of the scans. */
  datatype Activation = Ran(outcome: StateUtils.Outcome) | ScansRanOut

  /** How a run of the state machine ends: an exception in a listener
      (which clears the active state), no active state left, no scans left,
      or no rounds left. */
  datatype GameEnd = Crashed(error: ErrorKind) | NoActiveState | CameraExhausted | RoundsExhausted

  /** The outcome of check_has_token. */
  datatype Check = Checked(has: bool) | CheckStopped(stop: Stop)

  /** What search_func looks for. */
  datatype Category = Slots | Tokens

  /** The end of a search: the marker found, or what stopped it. */
  datatype SearchEnd = Found(marker: Vision.Marker) | SearchHalted(stop: Stop)

  // ---------------------------------------------------------------------
  // The state graph's invariant
  // ---------------------------------------------------------------------

  /** Which states hold a token: from the start drive to the slot and from
      picking it up until it is put down; none while turning toward, looking
      for and driving to a token. */
  predicate TokenInv(p: Phase, hasToken: bool) {
    (p in {SearchSlot, DriveToSlot, PlaceToken, TurnToSlot} ==> hasToken) &&
    (p in {TurnToToken, SearchToken, DriveToToken, PickToken} ==> !hasToken)
  }

  /** A request the listener can be called with, in a state that agrees
      with the token flag. */
  predicate WellFormed(req: Request, hasToken: bool) {
    |req.args| == Arity(req.phase) && TokenInv(req.phase, hasToken)
  }

  predicate Inv(g: Fields) {
    g.active.Some? ==> WellFormed(g.active.value, g.hasToken)
  }

  /** The State object a register built as `stateOf` holds for the active
      request, null when nothing is active. */
  function StateOf<L, A>(stateOf: Phase -> StateUtils.State<L, A>, active: Option<Request>): StateUtils.State?<L, A> {
    if active.None? then null else stateOf(active.value.phase)
  }

  function SetState(g: Fields, p: Phase, args: seq<Vision.Marker>): Fields {
    g.(active := Some(Request(p, args)))
  }

  /** What a listener started in state `p` from fields `g` guarantees about
      its result `r` when `g` agrees with the invariant: no failed `has_token`
      assertion; on return a different state, well formed, is active; an
      interrupt, or the camera running out, leaves the token flag and the
      active state as they were, and a slot interrupt comes only from a
      scan watched while searching for a token. */
  ghost predicate Sound(p: Phase, g: Fields, watch: Watch, r: (Ending, Fields, Snapshot)) {
    TokenInv(p, g.hasToken) ==>
      r.0 != Stopped(Failed(AssertionError)) &&
      (r.0.Finished? ==> r.1.active.Some? && r.1.active.value.phase != p && WellFormed(r.1.active.value, r.1.hasToken)) &&
      (r.0 == Stopped(OutOfScans) ==> r.1.hasToken == g.hasToken && r.1.active == g.active) &&
      (r.0.Stopped? && r.0.stop.Interrupted? ==>
         r.1.hasToken == g.hasToken && r.1.active == g.active &&
         (r.0.stop.alarm == SlotAlarm ==> watch == Watching(true)))
  }

  // ---------------------------------------------------------------------
  // Directions and fixed scripts
  // ---------------------------------------------------------------------

  /** AdjDir: corners 0 and 2 keep the direction, the others swap Left and
      Right. */
  function AdjDir(corner: int, k: TurnKind): (r: TurnKind)
    ensures k != BareRotation ==> r != BareRotation
    ensures corner == 0 || corner == 2 ==> r == k
    ensures corner != 0 && corner != 2 && k != BareRotation ==> r != k
  {
    if corner == 0 || corner == 2 then k
    else if k == RightTurn then LeftTurn
    else RightTurn
  }

  /** Adjusting a direction twice gives it back. */
  lemma AdjDirInvolution(corner: int, k: TurnKind)
    requires k != BareRotation
    ensures AdjDir(corner, AdjDir(corner, k)) == k
  {
  }

  /** The continuation an obstacle installs: back off 0.9 m, turn right 10. */
  const MoveAwayCalls: seq<IoCall> := [MoveCall(Distance(-0.9, 50.0)), MoveCall(Turn(RightTurn, 10.0, 50.0))]

  /** scan_move's turn amount. */
  const ScanDegree: int := 17

  /** scan_move(Dir): turn 17 degrees at speed 50, then wait a second. */
  function ScanMoveCalls(k: TurnKind): seq<IoCall>
    requires k != BareRotation
  {
    [MoveCall(Turn(k, ScanDegree as real, 50.0)), WaitCall(1.0)]
  }

  // ---------------------------------------------------------------------
  // search_func
  // ---------------------------------------------------------------------

  /** The type filter of each search (`include('SLOTS')`, `include('TOKENS')`). */
  function Kinds(c: Category): seq<Vision.MarkerType> {
    if c == Slots then SlotKinds else TokenKinds
  }

  /** `max_rot`: 270 for slots, the default 200 for tokens. */
  function MaxRotation(c: Category): int {
    if c == Slots then 270 else 200
  }

  /** `rot_cb`: drive 0.5 m for slots, the default 1 m for tokens. */
  function Fallback(c: Category): seq<IoCall> {
    if c == Slots then [MoveCall(Distance(0.5, 50.0))] else [MoveCall(Distance(1.0, 50.0))]
  }

  function NextPhase(c: Category): Phase {
    if c == Slots then DriveToSlot else DriveToToken
  }

  /** search_slot's filter: outside the start run the scan as it is; on it,
      the first marker with the corner's closest slot code alone, if any. */
  function SlotSift(ms: seq<Vision.Marker>, fromStart: bool, slot: Option<int>): (r: seq<Vision.Marker>)
    ensures !fromStart ==> r == ms
    ensures fromStart && slot.Some? && (exists i :: 0 <= i < |ms| && ms[i].code == slot.value) ==>
              |r| == 1 && r[0] in ms && r[0].code == slot.value
    ensures (slot.None? || forall i :: 0 <= i < |ms| ==> ms[i].code != slot.value) ==> r == ms
  {
    if !fromStart || slot.None? then ms
    else
      match FirstWithCode(ms, slot.value)
      case Some(m) => [m]
      case None => ms
  }

  /** search_token's filter: the markers whose code is one of ours, in order. */
  function OwnTokens(ms: seq<Vision.Marker>, tokens: seq<int>): (r: seq<Vision.Marker>)
    ensures |r| <= |ms|
    ensures forall m :: m in r <==> m in ms && m.code in tokens
  {
    if ms == [] then []
    else
      var rest := OwnTokens(ms[..|ms| - 1], tokens);
      var m := ms[|ms| - 1];
      if m.code in tokens then rest + [m] else rest
  }

  /** check_has_token's second filter: the markers closer than 0.5 m. */
  function Near(ms: seq<Vision.Marker>): (r: seq<Vision.Marker>)
    ensures |r| <= |ms|
    ensures forall m :: m in r <==> m in ms && m.dist < 0.5
  {
    if ms == [] then []
    else
      var rest := Near(ms[..|ms| - 1]);
      var m := ms[|ms| - 1];
      if m.dist < 0.5 then rest + [m] else rest
  }

  /** Both filters of the game keep order and multiplicity: each
      distributes over concatenation (with OwnTokensOne and NearOne, this
      fixes the result). */
  lemma {:induction false} OwnTokensAppend(a: seq<Vision.Marker>, b: seq<Vision.Marker>, tokens: seq<int>)
    ensures OwnTokens(a + b, tokens) == OwnTokens(a, tokens) + OwnTokens(b, tokens)
    decreases |b|
  {
    if b == [] {
      assert a + b == a;
    } else {
      var b' := b[..|b| - 1];
      var m := b[|b| - 1];
      OwnTokensAppend(a, b', tokens);
      assert (a + b)[..|a + b| - 1] == a + b' && (a + b)[|a + b| - 1] == m;
      assert OwnTokens(a + b, tokens) == OwnTokens(a + b', tokens) + (if m.code in tokens then [m] else []);
    }
  }

  /** A single marker survives exactly when its code is one of ours. */
  lemma OwnTokensOne(m: Vision.Marker, tokens: seq<int>)
    ensures OwnTokens([m], tokens) == (if m.code in tokens then [m] else [])
  {
    assert [m][..0] == [];
  }

  lemma {:induction false} NearAppend(a: seq<Vision.Marker>, b: seq<Vision.Marker>)
    ensures Near(a + b) == Near(a) + Near(b)
    decreases |b|
  {
    if b == [] {
      assert a + b == a;
    } else {
      var b' := b[..|b| - 1];
      var m := b[|b| - 1];
      NearAppend(a, b');
      assert (a + b)[..|a + b| - 1] == a + b' && (a + b)[|a + b| - 1] == m;
      assert Near(a + b) == Near(a + b') + (if m.dist < 0.5 then [m] else []);
    }
  }

  /** A single marker survives exactly when it is closer than 0.5 m. */
  lemma NearOne(m: Vision.Marker)
    ensures Near([m]) == (if m.dist < 0.5 then [m] else [])
  {
    assert [m][..0] == [];
  }

  /** Some marker survives both filters of check_has_token iff one of ours
      is closer than 0.5 m. */
  lemma NearOwnTokens(ms: seq<Vision.Marker>, tokens: seq<int>)
    ensures |Near(OwnTokens(ms, tokens))| > 0 <==> exists m :: m in ms && m.code in tokens && m.dist < 0.5
  {
    var near := Near(OwnTokens(ms, tokens));
    if |near| > 0 {
      assert near[0] in near;
    }
  }

  /** The turn (false) or fallback (true) taken by each of `n` consecutive
      empty scans of a search, starting at `rotation`: the fallback runs
      when the rotation exceeds `max_rot` and resets it, a turn adds 17. */
  function Decisions(rotation: int, maxRot: int, n: nat): (d: seq<bool>)
    ensures |d| == n
    decreases n
  {
    if n == 0 then []
    else
      var fallback := rotation > maxRot;
      [fallback] + Decisions(if fallback then 0 else rotation + ScanDegree, maxRot, n - 1)
  }

  /** The number of scan turns before each fallback. */
  function Sweep(maxRot: nat): nat {
    maxRot / ScanDegree + 1
  }

  lemma {:induction false} DecisionsFrom(maxRot: nat, j: nat, n: nat)
    requires j <= Sweep(maxRot)
    ensures forall i :: 0 <= i < n ==>
      (Decisions(ScanDegree * j, maxRot, n)[i] <==> (i + j) % (Sweep(maxRot) + 1) == Sweep(maxRot))
    decreases n
  {
    if n > 0 {
      var k := Sweep(maxRot);
      var next := if j < k then j + 1 else 0;
      var d := Decisions(ScanDegree * j, maxRot, n);
      SweepArithmetic(maxRot, j);
      DecisionsFrom(maxRot, next, n - 1);
      ModUnique(j, k + 1, 0, j);
      forall i | 1 <= i < n
        ensures d[i] <==> (i + j) % (k + 1) == k
      {
        assert d[i] == Decisions(ScanDegree * next, maxRot, n - 1)[i - 1];
        PeriodStep(i, j, k);
      }
    }
  }

  /** The rotation after j turns exceeds max_rot exactly at j = Sweep, and
      each turn adds 17 to it. */
  lemma SweepArithmetic(maxRot: nat, j: nat)
    requires j <= Sweep(maxRot)
    ensures ScanDegree * j > maxRot <==> j == Sweep(maxRot)
    ensures ScanDegree * j + ScanDegree == ScanDegree * (j + 1) && ScanDegree * 0 == 0
  {
    assert maxRot == ScanDegree * (maxRot / ScanDegree) + maxRot % ScanDegree;
  }

  lemma PeriodStep(i: nat, j: nat, k: nat)
    requires i >= 1 && j <= k
    ensures (i + j) % (k + 1) == ((i - 1) + (if j < k then j + 1 else 0)) % (k + 1)
  {
    if j == k {
      ShiftMod(i - 1, k + 1);
    }
  }

  lemma ShiftMod(x: nat, m: nat)
    requires m > 0
    ensures (x + m) % m == x % m
  {
    var q := x / m;
    assert x == q * m + x % m;
    assert x + m == (q + 1) * m + x % m;
    ModUnique(x + m, m, q + 1, x % m);
  }

  lemma ModUnique(a: int, m: int, q: int, r: int)
    requires m > 0 && 0 <= r < m && a == q * m + r
    ensures a % m == r
  {
    var q', r' := a / m, a % m;
    assert a == q' * m + r';
    assert (q - q') * m == r' - r;
    if q' < q {
      MulAtLeast(q - q', m);
    } else if q' > q {
      MulAtLeast(q' - q, m);
    }
  }

  lemma {:induction false} MulAtLeast(k: int, m: int)
    requires k >= 1 && m > 0
    ensures k * m >= m
    decreases k
  {
    if k > 1 {
      MulAtLeast(k - 1, m);
      assert k * m == (k - 1) * m + m;
    }
  }

  /** A search from rotation 0 falls back exactly at every (k+1)-th empty
      scan, k being the number of 17-degree turns it takes to exceed
      `max_rot`: 16 for slots (270) and 12 for tokens (200, first exceeded
      at 204). */
  lemma FallbackSchedule(c: Category, n: nat)
    ensures var k := if c == Slots then 16 else 12;
      Sweep(MaxRotation(c)) == k &&
      forall i :: 0 <= i < n ==> (Decisions(0, MaxRotation(c), n)[i] <==> i % (k + 1) == k)
  {
    assert ScanDegree * 0 == 0;
    DecisionsFrom(MaxRotation(c), 0, n);
  }

  /** `rest` is what is left of `xs` after a run of elements `miss`
      holds of, ended by one `hit` holds of. */
  ghost predicate HitAfterMisses<T>(xs: seq<T>, rest: seq<T>, miss: T -> bool, hit: T -> bool) {
    |rest| < |xs| && rest == xs[|xs| - |rest|..] &&
    (forall j :: 0 <= j < |xs| - |rest| - 1 ==> miss(xs[j])) &&
    hit(xs[|xs| - |rest| - 1])
  }

  /** One more miss in front keeps the same hit and the same rest. */
  lemma MissThenHit<T>(xs: seq<T>, rest: seq<T>, miss: T -> bool, hit: T -> bool)
    requires xs != [] && miss(xs[0]) && HitAfterMisses(xs[1..], rest, miss, hit)
    ensures HitAfterMisses(xs, rest, miss, hit)
  {
    var t := xs[1..];
    var n := |xs| - |rest|;
    assert rest == xs[n..];
    assert t[n - 2] == xs[n - 1];
    forall j | 0 <= j < n - 1
      ensures miss(xs[j])
    {
      if j > 0 {
        assert t[j - 1] == xs[j];
      }
    }
  }

  class PlayGame {
    const io: Io
    const corner: int
    /** `our_tokens`, fixed at construction from the corner. */
    const ourTokens: seq<int>
    var hasToken: bool
    var slotSearches: int
    var tokenSearches: int
    var fromStart: bool
    var doneCount: int
    var onInterrupt: Continuation
    var active: Option<Request>

    ghost predicate Valid()
      reads this, io, io.left, io.right, io.arm, io.grabber, io.arm.board, io.grabber.board
    {
      io.Valid() && ourTokens == GameMap.OurTokens(corner)
    }

    function State(): Fields
      reads this
    {
      Fields(hasToken, slotSearches, tokenSearches, fromStart, doneCount, onInterrupt, active)
    }

    /** PlayGame(log, io, corner) up to its call of startup. */
    constructor (io: Io, corner: int)
      requires io.Valid()
      ensures this.io == io && this.corner == corner && Valid()
      ensures State() == Fields(false, 0, 0, false, 0, NoContinuation, None)
    {
      this.io := io;
      this.corner := corner;
      ourTokens := GameMap.OurTokens(corner);
      hasToken := false;
      slotSearches := 0;
      tokenSearches := 0;
      fromStart := false;
      doneCount := 0;
      onInterrupt := NoContinuation;
      active := None;
    }

    // -------------------------------------------------------------------
    // Reference functions
    // -------------------------------------------------------------------

    /** search_func's `filt` for each search. */
    function Sifted(c: Category, ms: seq<Vision.Marker>, fromStart: bool): seq<Vision.Marker> {
      if c == Slots then SlotSift(ms, fromStart, GameMap.ClosestSlot(corner)) else OwnTokens(ms, ourTokens)
    }

    function SearchTurn(c: Category): TurnKind {
      AdjDir(corner, if c == Slots then RightTurn else LeftTurn)
    }

    /** search_func's loop from `rotation` on: scan; the closest marker the
        filter keeps ends the search; otherwise fall back (rotation above
        `max_rot`, resetting it) or make a scan turn. The third component
        lists the fallbacks (true) and turns (false) in order. */
    function SearchF(s: Snapshot, rotation: int, c: Category, fromStart: bool): (r: (SearchEnd, Snapshot, seq<bool>))
      requires io.Ready()
      ensures r.1.watch == s.watch && s.trace <= r.1.trace
      ensures r.0 == SearchHalted(Interrupted(SlotAlarm)) ==> s.watch == Watching(true)
      ensures r.0.Found? ==> r.0.marker.kind in Kinds(c)
      ensures r.0.SearchHalted? && r.0.stop.Failed? ==> InterfaceError(r.0.stop.error)
      ensures r.2 == Decisions(rotation, MaxRotation(c), |r.2|)
      decreases |s.scans|, 0
    {
      var scanned := io.ScanF(s, Some(Kinds(c)));
      match scanned.1
      case NoScan => (SearchHalted(OutOfScans), scanned.0, [])
      case Alarmed(a) => (SearchHalted(Interrupted(a)), scanned.0, [])
      case Seen(ms) =>
        var kept := Sifted(c, ms, fromStart);
        if |kept| > 0 then
          var m := kept[Vision.ClosestIndex(kept)];
          SiftedKinds(c, ms, fromStart, m);
          (Found(m), scanned.0, [])
        else SearchOn(scanned.0, rotation, c, fromStart)
    }

    /** After a scan the filter left empty: the fallback or a scan turn,
        then the next scan. */
    function SearchOn(s: Snapshot, rotation: int, c: Category, fromStart: bool): (r: (SearchEnd, Snapshot, seq<bool>))
      requires io.Ready()
      ensures r.1.watch == s.watch && s.trace <= r.1.trace
      ensures r.0 == SearchHalted(Interrupted(SlotAlarm)) ==> s.watch == Watching(true)
      ensures r.0.Found? ==> r.0.marker.kind in Kinds(c)
      ensures r.0.SearchHalted? && r.0.stop.Failed? ==> InterfaceError(r.0.stop.error)
      ensures |r.2| > 0 && r.2 == Decisions(rotation, MaxRotation(c), |r.2|)
      decreases |s.scans|, 1
    {
      var fallback := rotation > MaxRotation(c);
      var calls := if fallback then Fallback(c) else ScanMoveCalls(SearchTurn(c));
      var after := io.RunCalls(s, calls);
      if after.1.Some? then (SearchHalted(Failed(after.1.value)), after.0, [fallback])
      else
        var rest := SearchF(after.0, if fallback then 0 else rotation + ScanDegree, c, fromStart);
        assert Decisions(rotation, MaxRotation(c), 1 + |rest.2|) == [fallback] + rest.2;
        (rest.0, rest.1, [fallback] + rest.2)
    }

    /** Both filters keep markers of the scan only. */
    lemma SiftedKinds(c: Category, ms: seq<Vision.Marker>, fromStart: bool, m: Vision.Marker)
      requires m in Sifted(c, ms, fromStart)
      ensures m in ms
    {
      if c == Slots && fromStart && GameMap.ClosestSlot(corner).Some? {
        var slot := GameMap.ClosestSlot(corner).value;
        if FirstWithCode(ms, slot).None? {
          assert Sifted(c, ms, fromStart) == ms;
        }
      }
    }

    /** The filter of a search keeps nothing of this scan. */
    ghost predicate KeepsNone(c: Category, fromStart: bool, scan: seq<Vision.Marker>) {
      Sifted(c, Vision.FilterKinds(scan, Kinds(c)), fromStart) == []
    }

    /** `m` is the closest marker the filter keeps of this scan (the
        earliest on ties). */
    ghost predicate ClosestKept(c: Category, fromStart: bool, scan: seq<Vision.Marker>, m: Vision.Marker) {
      var kept := Sifted(c, Vision.FilterKinds(scan, Kinds(c)), fromStart);
      |kept| > 0 && m == kept[Vision.ClosestIndex(kept)]
    }

    /** What a successful search found: the scans it consumed are the
        first ones of `scans`, every consumed scan but the last left the
        filter empty, and `m` is the closest marker the filter kept from
        the last one. */
    ghost predicate FoundInLastScan(c: Category, fromStart: bool, scans: seq<seq<Vision.Marker>>,
                                    rest: seq<seq<Vision.Marker>>, m: Vision.Marker) {
      HitAfterMisses(scans, rest, scan => KeepsNone(c, fromStart, scan), scan => ClosestKept(c, fromStart, scan, m))
    }


    /** A search that finds a marker hands on the closest kept marker of
        the first scan whose filter keeps any. */
    lemma {:induction false} SearchFoundClosest(s: Snapshot, rotation: int, c: Category, fromStart: bool)
      requires io.Ready()
      ensures var r := SearchF(s, rotation, c, fromStart);
        r.0.Found? ==> FoundInLastScan(c, fromStart, s.scans, r.1.scans, r.0.marker)
      decreases |s.scans|, 0
    {
      var r := SearchF(s, rotation, c, fromStart);
      var scanned := io.ScanF(s, Some(Kinds(c)));
      if r.0.Found? && scanned.1.Seen? {
        if KeepsNone(c, fromStart, s.scans[0]) {
          assert scanned.1.markers == Vision.FilterKinds(s.scans[0], Kinds(c));
          assert r == SearchOn(scanned.0, rotation, c, fromStart);
          SearchOnFoundClosest(scanned.0, rotation, c, fromStart);
          FoundAfterEmptyScan(c, fromStart, s.scans, r.1.scans, r.0.marker);
        } else {
          SearchHitsFirstScan(s, rotation, c, fromStart);
        }
      }
    }

    /** A first scan whose filter keeps a marker ends the search on it. */
    lemma SearchHitsFirstScan(s: Snapshot, rotation: int, c: Category, fromStart: bool)
      requires io.Ready() && s.scans != [] && io.ScanF(s, Some(Kinds(c))).1.Seen?
      requires !KeepsNone(c, fromStart, s.scans[0])
      ensures var r := SearchF(s, rotation, c, fromStart);
        r.0.Found? && FoundInLastScan(c, fromStart, s.scans, r.1.scans, r.0.marker)
    {
      var r := SearchF(s, rotation, c, fromStart);
      var scanned := io.ScanF(s, Some(Kinds(c)));
      assert scanned.1.markers == Vision.FilterKinds(s.scans[0], Kinds(c));
      assert r.1.scans == s.scans[1..];
      assert ClosestKept(c, fromStart, s.scans[0], r.0.marker);
    }

    /** A scan the filter left empty, before a search that found `m`. */
    lemma FoundAfterEmptyScan(c: Category, fromStart: bool, scans: seq<seq<Vision.Marker>>,
                              rest: seq<seq<Vision.Marker>>, m: Vision.Marker)
      requires scans != [] && KeepsNone(c, fromStart, scans[0])
      requires FoundInLastScan(c, fromStart, scans[1..], rest, m)
      ensures FoundInLastScan(c, fromStart, scans, rest, m)
    {
      MissThenHit(scans, rest, scan => KeepsNone(c, fromStart, scan), scan => ClosestKept(c, fromStart, scan, m));
    }

    lemma {:induction false} SearchOnFoundClosest(s: Snapshot, rotation: int, c: Category, fromStart: bool)
      requires io.Ready()
      ensures var r := SearchOn(s, rotation, c, fromStart);
        r.0.Found? ==> FoundInLastScan(c, fromStart, s.scans, r.1.scans, r.0.marker)
      decreases |s.scans|, 1
    {
      var r := SearchOn(s, rotation, c, fromStart);
      var fallback := rotation > MaxRotation(c);
      var calls := if fallback then Fallback(c) else ScanMoveCalls(SearchTurn(c));
      var after := io.RunCalls(s, calls);
      if after.1.None? {
        var next := if fallback then 0 else rotation + ScanDegree;
        assert r.0 == SearchF(after.0, next, c, fromStart).0 && r.1 == SearchF(after.0, next, c, fromStart).1;
        SearchFoundClosest(after.0, next, c, fromStart);
      }
    }

    /** In any search from rotation 0 the fallback runs exactly at every
        17th (slots) or 13th (tokens) empty scan, the others being
        17-degree scan turns. */
    lemma SearchSchedule(s: Snapshot, c: Category, fromStart: bool)
      requires io.Ready()
      ensures var log := SearchF(s, 0, c, fromStart).2;
        var k := if c == Slots then 16 else 12;
        forall i :: 0 <= i < |log| ==> (log[i] <==> i % (k + 1) == k)
    {
      FallbackSchedule(c, |SearchF(s, 0, c, fromStart).2|);
    }

    /** The searches counter of the category, one higher. */
    function Counted(g: Fields, c: Category): Fields {
      if c == Slots then g.(slotSearches := g.slotSearches + 1) else g.(tokenSearches := g.tokenSearches + 1)
    }

    /** search_slot / search_token: count the search, search from rotation 0
        and on success make the drive state active with the marker found. */
    function SearchListenerF(c: Category, g: Fields, s: Snapshot): (r: (Ending, Fields, Snapshot))
      requires io.Ready()
    {
      var f := SearchF(s, 0, c, g.fromStart);
      match f.0
      case Found(m) => (Finished, SetState(Counted(g, c), NextPhase(c), [m]), f.1)
      case SearchHalted(stop) => (Stopped(stop), Counted(g, c), f.1)
    }

    /** reset: watch the markers, open the grabber, lower the arm with a
        delay, clear the fields and make START active. */
    function ResetF(g: Fields, s: Snapshot): (r: (Option<ErrorKind>, Fields, Snapshot))
      requires io.Ready()
    {
      var a := io.RunCalls(s.(watch := Watching(false)), [GrabberCall(true, false), ArmCall(Down, true)]);
      if a.1.Some? then (a.1, g, a.0)
      else (None, Fields(false, 0, 0, false, 0, g.onInterrupt, Some(Request(Start, []))), a.0)
    }

    const StartGrab: seq<IoCall> := [GrabberCall(false, true), ArmCall(Up, true)]

    function StartDrive(): seq<IoCall> {
      [MoveCall(Distance(2.3, 80.0)), ArmCall(Middle, true), MoveCall(Turn(AdjDir(corner, LeftTurn), 40.0, 60.0))]
    }

    /** preset_start: mark the start run, grab the preloaded token and lift
        it, then drive 2.3 m, lower the arm halfway, turn 40 and search for
        a slot. */
    function PresetStartF(g: Fields, s: Snapshot): (r: (Ending, Fields, Snapshot))
      requires io.Ready()
    {
      var g1 := g.(fromStart := true);
      var a := io.RunCalls(s, StartGrab);
      if a.1.Some? then (EndingOf(a.1), g1, a.0)
      else
        var g2 := g1.(hasToken := true);
        var b := io.RunCalls(a.0, StartDrive());
        (EndingOf(b.1), if b.1.None? then SetState(g2, SearchSlot, []) else g2, b.0)
    }

    /** drive_to_slot(slot): asserts a token is held, drives to the slot with
        offset 0.3, and picks the next state. */
    function DriveToSlotF(slot: Vision.Marker, g: Fields, s: Snapshot): (r: (Ending, Fields, Snapshot))
      requires io.Ready()
    {
      if !g.hasToken then (Stopped(Failed(AssertionError)), g, s)
      else
        var p := io.GotoF(s, slot, 70, SameCode, 0.3, false);
        if p.0.Halted? then (Stopped(p.0.stop), g, p.1)
        else if p.0 == Reached then (Finished, SetState(g, Phase.PlaceToken, []), p.1)
        else if g.fromStart then
          var d := io.MoveF(p.1, Distance(0.1, 40.0));
          (EndingOf(d.1), if d.1.None? then SetState(g, Phase.PlaceToken, []) else g, d.0)
        else if g.slotSearches >= 2 then (Finished, SetState(g, Phase.PlaceToken, []), p.1)
        else (Finished, SetState(g, SearchSlot, []), p.1)
    }

    const PlaceCalls: seq<IoCall> := [ArmCall(Up, true), GrabberCall(true, false), ArmCall(Down, false)]

    /** place_token: asserts a token is held, clears the start flag and the
        slot search count, lifts the arm, opens the grabber, lowers the arm,
        and counts the token as done. */
    function PlaceTokenF(g: Fields, s: Snapshot): (r: (Ending, Fields, Snapshot))
      requires io.Ready()
    {
      if !g.hasToken then (Stopped(Failed(AssertionError)), g, s)
      else
        var g1 := g.(fromStart := false, slotSearches := 0);
        var a := io.RunCalls(s, PlaceCalls);
        if a.1.Some? then (EndingOf(a.1), g1, a.0)
        else (Finished, SetState(g1.(hasToken := false, doneCount := g.doneCount + 1), TurnToToken, []), a.0)
    }

    /** next_token's moves: reverse 0.7 m out of the zone, then face the near
        tokens after fewer than two tokens, the far one after exactly two,
        and nothing more after that. */
    function NextTokenCalls(doneCount: int): seq<IoCall> {
      [MoveCall(Distance(-0.7, 60.0))] +
      (if doneCount < 2 then [MoveCall(Turn(AdjDir(corner, LeftTurn), 147.0, 50.0)), MoveCall(Distance(1.0, 65.0))]
       else if doneCount == 2 then [MoveCall(Turn(AdjDir(corner, RightTurn), 94.0, 50.0)), MoveCall(Distance(2.0, 65.0))]
       else [])
    }

    function NextTokenF(g: Fields, s: Snapshot): (r: (Ending, Fields, Snapshot))
      requires io.Ready()
    {
      var a := io.RunCalls(s, NextTokenCalls(g.doneCount));
      (EndingOf(a.1), if a.1.None? then SetState(g, SearchToken, []) else g, a.0)
    }

    /** drive_to_token's recovery when stuck: reverse 0.7 m and turn 90
        about a wheel. */
    function StuckCalls(): seq<IoCall> {
      [MoveCall(Distance(-0.7, 50.0)), MoveCall(Turn(AdjDir(corner, RightTurn), 90.0, 50.0, Wheel))]
    }

    /** drive_to_token(token): asserts no token is held, drives to the token
        and picks it up if reached; otherwise searches again, first backing
        off when stuck. */
    function DriveToTokenF(token: Vision.Marker, g: Fields, s: Snapshot): (r: (Ending, Fields, Snapshot))
      requires io.Ready()
    {
      if g.hasToken then (Stopped(Failed(AssertionError)), g, s)
      else
        var p := io.GotoF(s, token, 70, SameCode, 0.0, false);
        match p.0
        case Reached => (Finished, SetState(g, PickToken, []), p.1)
        case Lost => (Finished, SetState(g, SearchToken, []), p.1)
        case Stuck =>
          var a := io.RunCalls(p.1, StuckCalls());
          (EndingOf(a.1), if a.1.None? then SetState(g, SearchToken, []) else g, a.0)
        case Halted(stop) => (Stopped(stop), g, p.1)
    }

    /** pickup_token's calls: creep 0.3 m if no sensor reads a token, then
        close the grabber, raise the arm halfway, back off 0.2 m and lift the
        arm. */
    function PickupCalls(holding: bool): seq<IoCall> {
      (if holding then [] else [MoveCall(Distance(0.3, 30.0))]) +
      [GrabberCall(false, true), ArmCall(Middle, true), MoveCall(Distance(-0.2, 50.0)), ArmCall(Up, true)]
    }

    function PickupTokenF(g: Fields, s: Snapshot): (r: (Ending, Fields, Snapshot))
      requires io.Ready()
    {
      var h := io.HoldingF(s);
      var a := io.RunCalls(h.0, PickupCalls(h.1));
      if a.1.Some? then (EndingOf(a.1), g, a.0)
      else (Finished, SetState(g.(hasToken := true), TurnToSlot, []), a.0)
    }

    /** check_has_token: one of our tokens seen closer than 0.5 m among the
        bottom-face markers, or else the token sensors. */
    function CheckHasTokenF(s: Snapshot): (r: (Check, Snapshot))
      requires io.Ready()
      ensures r.1.watch == s.watch
      ensures r.0 == CheckStopped(Interrupted(SlotAlarm)) ==> s.watch == Watching(true)
    {
      var scanned := io.ScanF(s, Some([TokenKinds[1]]));
      match scanned.1
      case NoScan => (CheckStopped(OutOfScans), scanned.0)
      case Alarmed(a) => (CheckStopped(Interrupted(a)), scanned.0)
      case Seen(ms) =>
        if |Near(OwnTokens(ms, ourTokens))| > 0 then (Checked(true), scanned.0)
        else
          var h := io.HoldingF(scanned.0);
          (Checked(h.1), h.0)
    }

    /** next_slot's way back to the slots: after fewer than two tokens turn
        133, drive 2.1 m and turn 46; otherwise turn left 170 and drive 2 m. */
    function ReturnCalls(doneCount: int): seq<IoCall> {
      if doneCount < 2 then
        [MoveCall(Turn(AdjDir(corner, LeftTurn), 133.0, 50.0)), MoveCall(Distance(2.1, 50.0)),
         MoveCall(Turn(AdjDir(corner, LeftTurn), 46.0, 50.0))]
      else [MoveCall(Turn(LeftTurn, 170.0, 50.0)), MoveCall(Distance(2.0, 70.0))]
    }

    const DropCalls: seq<IoCall> := [ArmCall(Down, false), GrabberCall(true, false)]

    /** next_slot: back off 0.5 m and check the token; without it lower the
        arm, open the grabber, clear the flag, back off 0.5 m and search for
        a token; with it head back and search for a slot. */
    function NextSlotF(g: Fields, s: Snapshot): (r: (Ending, Fields, Snapshot))
      requires io.Ready()
    {
      var a := io.RunCalls(s, [MoveCall(Distance(-0.5, 50.0))]);
      if a.1.Some? then (EndingOf(a.1), g, a.0)
      else
        var c := CheckHasTokenF(a.0);
        match c.0
        case CheckStopped(stop) => (Stopped(stop), g, c.1)
        case Checked(has) => NextSlotChecked(g, has, c.1)
    }

    /** next_slot once check_has_token has answered `has`. */
    function NextSlotChecked(g: Fields, has: bool, s: Snapshot): (r: (Ending, Fields, Snapshot))
      requires io.Ready()
    {
      if !has then
        var b := io.RunCalls(s, DropCalls);
        if b.1.Some? then (EndingOf(b.1), g, b.0)
        else
          var g1 := g.(hasToken := false);
          var d := io.RunCalls(b.0, [MoveCall(Distance(-0.5, 80.0))]);
          (EndingOf(d.1), if d.1.None? then SetState(g1, SearchToken, []) else g1, d.0)
      else
        var b := io.RunCalls(s, ReturnCalls(g.doneCount));
        (EndingOf(b.1), if b.1.None? then SetState(g, SearchSlot, []) else g, b.0)
    }

    /** Calls the listener of a request; a wrong number of arguments is the
        call's TypeError. */
    function DispatchF(req: Request, g: Fields, s: Snapshot): (r: (Ending, Fields, Snapshot))
      requires io.Ready()
    {
      if |req.args| != Arity(req.phase) then (Stopped(Failed(TypeError)), g, s)
      else
        match req.phase
        case Start => PresetStartF(g, s)
        case SearchSlot => SearchListenerF(Slots, g, s)
        case DriveToSlot => DriveToSlotF(req.args[0], g, s)
        case PlaceToken => PlaceTokenF(g, s)
        case TurnToToken => NextTokenF(g, s)
        case SearchToken => SearchListenerF(Tokens, g, s)
        case DriveToToken => DriveToTokenF(req.args[0], g, s)
        case PickToken => PickupTokenF(g, s)
        case TurnToSlot => NextSlotF(g, s)
    }

    /** state_interrupted: run a pending continuation and clear it; an
        exception in it is swallowed by notify_handler and leaves it set. */
    function InterruptedF(g: Fields, s: Snapshot): (r: (Fields, Snapshot))
      requires io.Ready()
    {
      if g.onInterrupt == MoveAway then
        var a := io.RunCalls(s, MoveAwayCalls);
        (if a.1.None? then g.(onInterrupt := NoContinuation) else g, a.0)
      else (g, s)
    }

    /** The fields after an alarm reached the listener boundary: an obstacle
        leaves the move-away continuation; a slot seen while searching for a
        token has already made SEARCH_TOKEN active again and, through
        `itrpt()`, stored no continuation. */
    function AfterAlarm(g: Fields, a: Alarm): Fields {
      if a == ObstacleAlarm then g.(onInterrupt := MoveAway)
      else g.(active := Some(Request(SearchToken, [])), onInterrupt := NoContinuation)
    }

    /** One round of startup's loop: run the active state with the marker
        callback watching for it, then conclude as State.action does. */
    function ActivateF(g: Fields, s: Snapshot): (r: (Activation, Fields, Snapshot))
      requires io.Ready() && g.active.Some?
    {
      var req := g.active.value;
      Conclude(req, DispatchF(req, g, s.(watch := Watching(req.phase == SearchToken))))
    }

    /** How State.action and the game's handlers conclude a listener run
        `d` of `req`: a return clears the active state if it is still
        `req`'s; an exception clears it; an interrupt applies the alarm's
        effects and then state_interrupted. */
    function Conclude(req: Request, d: (Ending, Fields, Snapshot)): (r: (Activation, Fields, Snapshot))
      requires io.Ready()
    {
      match d.0
      case Finished =>
        (Ran(StateUtils.Returned),
         if d.1.active.Some? && d.1.active.value.phase == req.phase then d.1.(active := None) else d.1, d.2)
      case Stopped(stop) =>
        match stop
        case OutOfScans => (ScansRanOut, d.1, d.2)
        case Failed(e) => (Ran(StateUtils.Raised(e)), d.1.(active := None), d.2)
        case Interrupted(a) =>
          var h := InterruptedF(AfterAlarm(d.1, a), d.2);
          (Ran(StateUtils.Interrupted(AlarmInterrupt(a))), h.0, h.1)
    }

    /** startup's loop for at most `rounds` rounds. */
    function RunF(g: Fields, s: Snapshot, rounds: nat): (r: (GameEnd, Fields, Snapshot))
      requires io.Ready()
      decreases rounds, 1
    {
      if g.active.None? then (NoActiveState, g, s)
      else if rounds == 0 then (RoundsExhausted, g, s)
      else RoundF(g, s, rounds)
    }

    /** One round of the loop, and the rounds after it. */
    function RoundF(g: Fields, s: Snapshot, rounds: nat): (r: (GameEnd, Fields, Snapshot))
      requires io.Ready() && g.active.Some? && rounds > 0
      decreases rounds, 0
    {
      var a := ActivateF(g, s);
      match a.0
      case ScansRanOut => (CameraExhausted, a.1, a.2)
      case Ran(o) => if o.Raised? then (Crashed(o.error), a.1, a.2) else RunF(a.1, a.2, rounds - 1)
    }

    /** startup: no continuation pending, reset, then the loop; an exception
        in reset leaves the constructor. */
    function StartupF(g: Fields, s: Snapshot, rounds: nat): (r: (GameEnd, Fields, Snapshot))
      requires io.Ready()
    {
      var reset := ResetF(g.(onInterrupt := NoContinuation), s);
      if reset.0.Some? then (Crashed(reset.0.value), reset.1, reset.2)
      else RunF(reset.1, reset.2, rounds)
    }

    // -------------------------------------------------------------------
    // Properties of the strategy
    // -------------------------------------------------------------------

    /** search_func counts the search exactly once, and on success passes
        the closest marker the filter kept (of the searched type) to the
        drive state. */
    lemma SearchListenerFacts(c: Category, g: Fields, s: Snapshot)
      requires io.Ready()
      ensures var r := SearchListenerF(c, g, s);
        r.1.slotSearches == g.slotSearches + (if c == Slots then 1 else 0) &&
        r.1.tokenSearches == g.tokenSearches + (if c == Tokens then 1 else 0) &&
        r.1.hasToken == g.hasToken && r.1.fromStart == g.fromStart && r.1.doneCount == g.doneCount &&
        (r.0.Finished? <==> SearchF(s, 0, c, g.fromStart).0.Found?) &&
        (r.0.Finished? ==> r.1.active == Some(Request(NextPhase(c), [SearchF(s, 0, c, g.fromStart).0.marker])) &&
                           SearchF(s, 0, c, g.fromStart).0.marker.kind in Kinds(c) &&
                           FoundInLastScan(c, g.fromStart, s.scans, r.2.scans, SearchF(s, 0, c, g.fromStart).0.marker)) &&
        (r.0.Stopped? ==> r.1.active == g.active)
    {
      SearchFoundClosest(s, 0, c, g.fromStart);
    }

    /** drive_to_slot's priority: reaching the slot, then the start run
        (after a 0.1 m nudge), then two or more searches all put the token
        down; only a miss outside the start run with fewer than two searches
        searches again. */
    lemma DriveToSlotDecisions(slot: Vision.Marker, g: Fields, s: Snapshot)
      requires io.Ready() && g.hasToken
      ensures var p := io.GotoF(s, slot, 70, SameCode, 0.3, false);
        var r := DriveToSlotF(slot, g, s);
        !p.0.Halted? && !(p.0 != Reached && g.fromStart) ==>
          r.0 == Finished && r.2 == p.1 &&
          r.1 == SetState(g, if p.0 == Reached || g.slotSearches >= 2 then Phase.PlaceToken else SearchSlot, [])
      ensures var p := io.GotoF(s, slot, 70, SameCode, 0.3, false);
        var r := DriveToSlotF(slot, g, s);
        p.0 != Reached && !p.0.Halted? && g.fromStart ==>
          var d := io.MoveF(p.1, Distance(0.1, 40.0));
          r.2 == d.0 && (d.1.None? ==> r == (Finished, SetState(g, Phase.PlaceToken, []), d.0))
      ensures DriveToSlotF(slot, g, s).0.Finished? ==>
        (DriveToSlotF(slot, g, s).1.active.value.phase == SearchSlot <==>
          io.GotoF(s, slot, 70, SameCode, 0.3, false).0 != Reached && !g.fromStart && g.slotSearches < 2)
    {
    }

    /** Without a token the drive to a slot fails its assertion before
        moving. */
    lemma DriveToSlotNeedsToken(slot: Vision.Marker, g: Fields, s: Snapshot)
      requires io.Ready() && !g.hasToken
      ensures DriveToSlotF(slot, g, s) == (Stopped(Failed(AssertionError)), g, s)
    {
    }

    /** place_token clears the start flag and the slot searches, drops the
        token, counts exactly one more token done and heads for the next
        token; the servo commands are arm up then 0.5 s, grabber open, arm
        down. */
    lemma PlaceTokenEffect(g: Fields, s: Snapshot)
      requires io.Ready() && g.hasToken
      ensures var r := PlaceTokenF(g, s);
        !r.1.fromStart && r.1.slotSearches == 0 && r.1.tokenSearches == g.tokenSearches &&
        r.2 == io.RunCalls(s, PlaceCalls).0 &&
        (r.0.Finished? ==>
           !r.1.hasToken && r.1.doneCount == g.doneCount + 1 && r.1.active == Some(Request(TurnToToken, [])) &&
           r.2.trace == s.trace + [SetServo(ArmServo, io.arm.min), Sleep(0.5), SetServo(GrabberServo, io.grabber.min),
                                   SetServo(ArmServo, io.arm.max)])
    {
      var one := PlaceCalls[..1];
      var two := PlaceCalls[..2];
      assert one[..0] == [] && two[..1] == one && PlaceCalls[..2] == two;
      var s1 := s.(trace := s.trace + [SetServo(ArmServo, io.arm.min)] + [Sleep(0.5)]);
      var s2 := s1.(trace := s1.trace + [SetServo(GrabberServo, io.grabber.min)] + []);
      var s3 := s2.(trace := s2.trace + [SetServo(ArmServo, io.arm.max)] + []);
      assert io.RunCalls(s, one) == (s1, None);
      assert io.RunCalls(s, two) == (s2, None);
      assert io.RunCalls(s, PlaceCalls) == (s3, None);
      assert s3.trace == s.trace + [SetServo(ArmServo, io.arm.min), Sleep(0.5), SetServo(GrabberServo, io.grabber.min),
                                    SetServo(ArmServo, io.arm.max)];
    }

    /** drive_to_token: reached means PICK_TOKEN with no further move; lost
        means SEARCH_TOKEN with no further move; stuck (the 0 result)
        reverses 0.7 m and turns 90 about a wheel before SEARCH_TOKEN. */
    lemma DriveToTokenOutcomes(token: Vision.Marker, g: Fields, s: Snapshot)
      requires io.Ready() && !g.hasToken
      ensures var p := io.GotoF(s, token, 70, SameCode, 0.0, false);
        var r := DriveToTokenF(token, g, s);
        (p.0 == Reached ==> r == (Finished, SetState(g, PickToken, []), p.1)) &&
        (p.0 == Lost ==> r == (Finished, SetState(g, SearchToken, []), p.1)) &&
        (p.0 == Stuck ==> (r.2 == io.RunCalls(p.1, StuckCalls()).0 &&
                           (r.0.Finished? ==> r.1 == SetState(g, SearchToken, [])))) &&
        (p.0.Halted? ==> r == (Stopped(p.0.stop), g, p.1))
    {
    }

    /** A held token fails drive_to_token's assertion before any move. */
    lemma DriveToTokenNeedsFreeGrabber(token: Vision.Marker, g: Fields, s: Snapshot)
      requires io.Ready() && g.hasToken
      ensures DriveToTokenF(token, g, s) == (Stopped(Failed(AssertionError)), g, s)
    {
    }

    /** check_has_token is true iff one of our tokens is seen closer than
        0.5 m, or else a token sensor reads true; the sensors are read only
        when no such token is seen. */
    lemma CheckHasTokenMeaning(s: Snapshot)
      requires io.Ready() && s.scans != []
      requires s.watch == Silent || (s.watch.Watching? && FirstAlarm(s.scans[0], s.watch.searchingToken).None?)
      ensures var r := CheckHasTokenF(s);
        var seen := Vision.FilterKinds(s.scans[0], [Vision.TokenBottom]);
        var near := exists m :: m in seen && m.code in ourTokens && m.dist < 0.5;
        r.0.Checked? && r.1.scans == s.scans[1..] &&
        (r.0.has <==> near || io.sensor(TokenLeft, s.readings) || io.sensor(TokenRight, s.readings + 1)) &&
        (near ==> r.1.readings == s.readings)
    {
      var seen := Vision.FilterKinds(s.scans[0], [Vision.TokenBottom]);
      assert [TokenKinds[1]] == [Vision.TokenBottom];
      var scanned := io.ScanF(s, Some([TokenKinds[1]]));
      assert scanned.1 == Seen(seen);
      NearOwnTokens(seen, ourTokens);
      var r := CheckHasTokenF(s);
      if |Near(OwnTokens(seen, ourTokens))| > 0 {
        assert r == (Checked(true), scanned.0);
      } else {
        assert r == (Checked(io.HoldingF(scanned.0).1), io.HoldingF(scanned.0).0);
      }
    }

    /** state_interrupted runs the move-away continuation at most once: after
        it ran without an exception it is cleared, and without one pending
        nothing happens. */
    lemma InterruptRunsOnce(g: Fields, s: Snapshot)
      requires io.Ready()
      ensures g.onInterrupt == NoContinuation ==> InterruptedF(g, s) == (g, s)
      ensures g.onInterrupt == MoveAway ==>
        var a := io.RunCalls(s, MoveAwayCalls);
        InterruptedF(g, s).1 == a.0 &&
        (a.1.None? ==> InterruptedF(g, s).0 == g.(onInterrupt := NoContinuation) &&
                       InterruptedF(InterruptedF(g, s).0, InterruptedF(g, s).1) == InterruptedF(g, s))
    {
    }

    /** How an activation concludes: an exception clears the active state;
        a return clears it only if the listener left its own state active;
        an interrupt keeps the state (SEARCH_TOKEN for a slot) active to be
        run again, with no continuation left pending after a slot or an
        obstacle whose move-away ran cleanly. */
    lemma ActivationConclusions(req: Request, d: (Ending, Fields, Snapshot))
      requires io.Ready()
      ensures var r := Conclude(req, d);
        (r.0.Ran? && r.0.outcome.Raised? ==> r.1.active.None? && d.0 == Stopped(Failed(r.0.outcome.error))) &&
        (r.0 == Ran(StateUtils.Returned) ==>
           (d.0.Finished? && (r.1.active.None? <==> d.1.active.None? || d.1.active.value.phase == req.phase))) &&
        (r.0.Ran? && r.0.outcome.Interrupted? && r.0.outcome.si.id == "slotfound" ==>
           r.1.active == Some(Request(SearchToken, [])) && r.1.onInterrupt == NoContinuation) &&
        (r.0.Ran? && r.0.outcome.Interrupted? && r.0.outcome.si.id == "stop" ==>
           r.1.active == d.1.active &&
           (io.RunCalls(d.2, MoveAwayCalls).1.None? ==>
              r.1.onInterrupt == NoContinuation && r.2 == io.RunCalls(d.2, MoveAwayCalls).0))
    {
    }

    /** Conclude is State.action's end over any register that gives each
        phase a State of its own (the names are distinct): after a return
        or an exception, the active state is ConcludedActive of the state
        the listener left active. */
    lemma ConcludeIsStateMachine<L, A>(req: Request, d: (Ending, Fields, Snapshot),
                                       stateOf: Phase -> StateUtils.State<L, A>, listener: L)
      requires io.Ready()
      requires forall p, q :: stateOf(p) == stateOf(q) ==> p == q
      ensures var o := StateUtils.Returned;
        d.0.Finished? ==>
          StateOf(stateOf, Conclude(req, d).1.active) ==
          StateUtils.ConcludedActive(stateOf(req.phase), StateOf(stateOf, d.1.active),
                                     StateUtils.Errors([listener], [o]), StateUtils.AnyInterrupt([o]))
      ensures d.0.Stopped? && d.0.stop.Failed? ==>
        var o := StateUtils.Raised(d.0.stop.error);
        StateOf(stateOf, Conclude(req, d).1.active) ==
        StateUtils.ConcludedActive(stateOf(req.phase), StateOf(stateOf, d.1.active),
                                   StateUtils.Errors([listener], [o]), StateUtils.AnyInterrupt([o]))
    {
      assert [StateUtils.Returned][..0] == [] && [listener][..0] == [];
    }

    // Each listener is sound.

    lemma PresetStartSound(g: Fields, s: Snapshot)
      requires io.Ready()
      ensures Sound(Start, g, s.watch, PresetStartF(g, s))
    {
    }

    lemma SearchSound(c: Category, g: Fields, s: Snapshot)
      requires io.Ready()
      ensures Sound(if c == Slots then SearchSlot else SearchToken, g, s.watch, SearchListenerF(c, g, s))
    {
    }

    lemma DriveToSlotSound(slot: Vision.Marker, g: Fields, s: Snapshot)
      requires io.Ready()
      ensures Sound(Phase.DriveToSlot, g, s.watch, DriveToSlotF(slot, g, s))
    {
    }

    lemma PlaceTokenSound(g: Fields, s: Snapshot)
      requires io.Ready()
      ensures Sound(Phase.PlaceToken, g, s.watch, PlaceTokenF(g, s))
    {
    }

    lemma NextTokenSound(g: Fields, s: Snapshot)
      requires io.Ready()
      ensures Sound(TurnToToken, g, s.watch, NextTokenF(g, s))
    {
    }

    lemma DriveToTokenSound(token: Vision.Marker, g: Fields, s: Snapshot)
      requires io.Ready()
      ensures Sound(Phase.DriveToToken, g, s.watch, DriveToTokenF(token, g, s))
    {
    }

    lemma PickupTokenSound(g: Fields, s: Snapshot)
      requires io.Ready()
      ensures Sound(PickToken, g, s.watch, PickupTokenF(g, s))
    {
    }

    lemma NextSlotSound(g: Fields, s: Snapshot)
      requires io.Ready()
      ensures Sound(TurnToSlot, g, s.watch, NextSlotF(g, s))
    {
      var a := io.RunCalls(s, [MoveCall(Distance(-0.5, 50.0))]);
      if a.1.None? {
        var c := CheckHasTokenF(a.0);
        if c.0.Checked? {
          NextSlotCheckedSound(g, c.0.has, c.1);
        }
      }
    }

    lemma NextSlotCheckedSound(g: Fields, has: bool, s: Snapshot)
      requires io.Ready()
      ensures Sound(TurnToSlot, g, s.watch, NextSlotChecked(g, has, s))
    {
    }

    /** A well-formed request runs a sound listener. */
    lemma DispatchSound(req: Request, g: Fields, s: Snapshot)
      requires io.Ready() && WellFormed(req, g.hasToken)
      ensures Sound(req.phase, g, s.watch, DispatchF(req, g, s))
    {
      match req.phase
      case Start => PresetStartSound(g, s);
      case SearchSlot => SearchSound(Slots, g, s);
      case DriveToSlot => DriveToSlotSound(req.args[0], g, s);
      case PlaceToken => PlaceTokenSound(g, s);
      case TurnToToken => NextTokenSound(g, s);
      case SearchToken => SearchSound(Tokens, g, s);
      case DriveToToken => DriveToTokenSound(req.args[0], g, s);
      case PickToken => PickupTokenSound(g, s);
      case TurnToSlot => NextSlotSound(g, s);
    }

    /** An activation keeps the invariant (so the next listener is called
        with the arguments it takes), never fails a `has_token` assertion,
        and leaves no state active only after an exception. */
    lemma ActivationKeepsInvariant(g: Fields, s: Snapshot)
      requires io.Ready() && g.active.Some? && Inv(g)
      ensures var r := ActivateF(g, s);
        Inv(r.1) &&
        r.0 != Ran(StateUtils.Raised(AssertionError)) &&
        (r.1.active.None? ==> r.0.Ran? && r.0.outcome.Raised?)
    {
      var req := g.active.value;
      var w := Watching(req.phase == SearchToken);
      DispatchSound(req, g, s.(watch := w));
      ConcludeSound(req, g, w, DispatchF(req, g, s.(watch := w)));
    }

    /** Concluding a sound run keeps the invariant. */
    lemma ConcludeSound(req: Request, g: Fields, w: Watch, d: (Ending, Fields, Snapshot))
      requires io.Ready() && g.active == Some(req) && WellFormed(req, g.hasToken)
      requires w == Watching(req.phase == SearchToken) && Sound(req.phase, g, w, d)
      ensures var r := Conclude(req, d);
        Inv(r.1) &&
        r.0 != Ran(StateUtils.Raised(AssertionError)) &&
        (r.1.active.None? ==> r.0.Ran? && r.0.outcome.Raised?)
    {
      if d.0.Stopped? && d.0.stop.Interrupted? {
        var a := d.0.stop.alarm;
        var f := AfterAlarm(d.1, a);
        assert f.hasToken == g.hasToken;
        if a == SlotAlarm {
          assert req.phase == SearchToken;
          assert f.active == Some(Request(SearchToken, []));
        } else {
          assert f.active == g.active;
        }
        assert Inv(f) && f.active.Some?;
        var h := InterruptedF(f, d.2);
        assert h.0.active == f.active && h.0.hasToken == f.hasToken;
      }
    }

    /** From a state satisfying the invariant, startup's loop keeps it, never
        fails a `has_token` assertion, and never stops with no state active
        except through an exception. */
    lemma {:induction false} GameKeepsGoing(g: Fields, s: Snapshot, rounds: nat)
      requires io.Ready() && Inv(g) && g.active.Some?
      ensures var r := RunF(g, s, rounds);
        Inv(r.1) && r.0 != NoActiveState && r.0 != Crashed(AssertionError)
      decreases rounds
    {
      if rounds > 0 {
        ActivationKeepsInvariant(g, s);
        var a := ActivateF(g, s);
        if a.0.Ran? && !a.0.outcome.Raised? {
          GameKeepsGoing(a.1, a.2, rounds - 1);
        }
      }
    }

    /** A game whose reset ran cleanly starts in START without a token, and
        then keeps the invariant, never fails a `has_token` assertion and
        never runs out of states except through an exception. */
    lemma StartupKeepsGoing(g: Fields, s: Snapshot, rounds: nat)
      requires io.Ready()
      ensures var reset := ResetF(g.(onInterrupt := NoContinuation), s);
        reset.0.None? ==>
          reset.1 == Fields(false, 0, 0, false, 0, NoContinuation, Some(Request(Start, []))) &&
          var r := StartupF(g, s, rounds);
          Inv(r.1) && r.0 != NoActiveState && r.0 != Crashed(AssertionError)
    {
      var reset := ResetF(g.(onInterrupt := NoContinuation), s);
      if reset.0.None? {
        GameKeepsGoing(reset.1, reset.2, rounds);
      }
    }

    // -------------------------------------------------------------------
    // The game
    // -------------------------------------------------------------------

    method Reset() returns (err: Option<ErrorKind>)
      requires Valid()
      modifies this, io, io.left, io.right, io.arm.board, io.grabber.board
      ensures Valid() && (err, State(), io.Snap()) == ResetF(old(State()), old(io.Snap()))
    {
      ghost var g, s := State(), io.Snap();
      io.SetMarkerHandler(Watching(false));
      assert io.Snap() == s.(watch := Watching(false)) && State() == g;
      err := io.Run([GrabberCall(true, false), ArmCall(Down, true)]);
      ghost var a := io.RunCalls(s.(watch := Watching(false)), [GrabberCall(true, false), ArmCall(Down, true)]);
      assert (io.Snap(), err) == a;
      if err.None? {
        hasToken := false;
        slotSearches := 0;
        tokenSearches := 0;
        fromStart := false;
        doneCount := 0;
        active := Some(Request(Start, []));
      }
    }

    method PresetStart() returns (e: Ending)
      requires Valid()
      modifies this, io, io.left, io.right, io.arm.board, io.grabber.board
      ensures Valid() && (e, State(), io.Snap()) == PresetStartF(old(State()), old(io.Snap()))
    {
      fromStart := true;
      var err := io.Run(StartGrab);
      if err.Some? {
        return EndingOf(err);
      }
      hasToken := true;
      err := io.Run(StartDrive());
      e := EndingOf(err);
      if err.None? {
        active := Some(Request(SearchSlot, []));
      }
    }

    /** search_func's `filt`; the start run's filter looks for the slot code
        with a loop. */
    method Sift(c: Category, ms: seq<Vision.Marker>) returns (kept: seq<Vision.Marker>)
      ensures kept == Sifted(c, ms, fromStart)
    {
      if c == Tokens {
        return OwnTokens(ms, ourTokens);
      }
      var slot := GameMap.ClosestSlot(corner);
      if !fromStart || slot.None? {
        return ms;
      }
      var m := io.FindByCode(ms, slot.value);
      kept := if m.Some? then [m.value] else ms;
    }

    /** scan_move: a 17-degree scan turn and a one-second wait. */
    method ScanMove(k: TurnKind) returns (degree: int, err: Option<ErrorKind>)
      requires Valid() && k != BareRotation
      modifies io, io.left, io.right, io.arm.board, io.grabber.board
      ensures Valid() && degree == ScanDegree && (io.Snap(), err) == io.RunCalls(old(io.Snap()), ScanMoveCalls(k))
    {
      err := io.Run(ScanMoveCalls(k));
      degree := ScanDegree;
    }

    /** search_func for search_slot (c == Slots) and search_token. */
    method SearchFunc(c: Category) returns (e: Ending)
      requires Valid()
      modifies this, io, io.left, io.right, io.arm.board, io.grabber.board
      ensures Valid() && (e, State(), io.Snap()) == SearchListenerF(c, old(State()), old(io.Snap()))
    {
      ghost var g, s := State(), io.Snap();
      if c == Slots {
        slotSearches := slotSearches + 1;
      } else {
        tokenSearches := tokenSearches + 1;
      }
      assert State() == Counted(g, c);
      var found := SearchLoop(c);
      ghost var f := SearchF(s, 0, c, g.fromStart);
      assert found == f.0 && io.Snap() == f.1;
      match found
      case Found(m) =>
        active := Some(Request(NextPhase(c), [m]));
        e := Finished;
        assert State() == SetState(Counted(g, c), NextPhase(c), [m]);
      case SearchHalted(stop) =>
        e := Stopped(stop);
    }

    /** search_func's loop, from rotation 0 until a pass ends it. */
    method SearchLoop(c: Category) returns (found: SearchEnd)
      requires Valid()
      modifies io, io.left, io.right, io.arm.board, io.grabber.board
      ensures Valid()
      ensures found == SearchF(old(io.Snap()), 0, c, fromStart).0
      ensures io.Snap() == SearchF(old(io.Snap()), 0, c, fromStart).1
    {
      ghost var goal := SearchF(io.Snap(), 0, c, fromStart);
      var rotation := 0;
      var done: Option<SearchEnd>;
      while true
        invariant Valid()
        invariant SearchF(io.Snap(), rotation, c, fromStart).0 == goal.0
        invariant SearchF(io.Snap(), rotation, c, fromStart).1 == goal.1
        decreases |io.scans|
      {
        done, rotation := SearchStep(c, rotation);
        if done.Some? {
          break;
        }
      }
      found := done.value;
    }

    /** One pass of search_func's loop: scan, and stop on a marker the
        filter keeps, or fall back or make a scan turn. */
    method SearchStep(c: Category, rotation: int) returns (done: Option<SearchEnd>, next: int)
      requires Valid()
      modifies io, io.left, io.right, io.arm.board, io.grabber.board
      ensures Valid()
      ensures done.Some? ==> done.value == SearchF(old(io.Snap()), rotation, c, fromStart).0 &&
                             io.Snap() == SearchF(old(io.Snap()), rotation, c, fromStart).1
      ensures done.None? ==> (|io.scans| < old(|io.scans|) &&
        SearchF(io.Snap(), next, c, fromStart).0 == SearchF(old(io.Snap()), rotation, c, fromStart).0 &&
        SearchF(io.Snap(), next, c, fromStart).1 == SearchF(old(io.Snap()), rotation, c, fromStart).1)
    {
      next := rotation;
      done := SearchScan(c, rotation);
      if done.Some? {
        return;
      }
      var err;
      err, next := SearchMove(c, rotation);
      if err.Some? {
        return Some(SearchHalted(Failed(err.value))), next;
      }
    }

    /** The scan of one pass: the search ends on no scan, an alarm or a kept
        marker; otherwise it goes on with a fallback or a turn. */
    method SearchScan(c: Category, ghost rotation: int) returns (done: Option<SearchEnd>)
      requires Valid()
      modifies io, io.left, io.right
      ensures Valid()
      ensures done.Some? ==> done.value == SearchF(old(io.Snap()), rotation, c, fromStart).0 &&
                             io.Snap() == SearchF(old(io.Snap()), rotation, c, fromStart).1
      ensures done.None? ==> |io.scans| < old(|io.scans|)
      ensures done.None? ==> SearchF(old(io.Snap()), rotation, c, fromStart) == SearchOn(io.Snap(), rotation, c, fromStart)
    {
      var scan := io.GetMarkers(Some(Kinds(c)));
      if scan.NoScan? {
        return Some(SearchHalted(OutOfScans));
      } else if scan.Alarmed? {
        return Some(SearchHalted(Interrupted(scan.alarm)));
      }
      var kept := Sift(c, scan.markers);
      var closest := Vision.GetClosest(kept);
      if closest.Some? {
        return Some(Found(closest.value));
      }
      return None;
    }

    /** The fallback once the rotation is past `max_rot`, else a scan turn. */
    method SearchMove(c: Category, rotation: int) returns (err: Option<ErrorKind>, next: int)
      requires Valid()
      modifies io, io.left, io.right, io.arm.board, io.grabber.board
      ensures Valid()
      ensures var after := io.RunCalls(old(io.Snap()), if rotation > MaxRotation(c) then Fallback(c) else ScanMoveCalls(SearchTurn(c)));
        (io.Snap(), err) == after &&
        (err.Some? ==> SearchOn(old(io.Snap()), rotation, c, fromStart) == (SearchHalted(Failed(err.value)), after.0, [rotation > MaxRotation(c)])) &&
        (err.None? ==> SearchOn(old(io.Snap()), rotation, c, fromStart).0 == SearchF(after.0, next, c, fromStart).0 &&
                       SearchOn(old(io.Snap()), rotation, c, fromStart).1 == SearchF(after.0, next, c, fromStart).1)
    {
      ghost var s := io.Snap();
      ghost var fallback := rotation > MaxRotation(c);
      ghost var calls := if fallback then Fallback(c) else ScanMoveCalls(SearchTurn(c));
      if rotation > MaxRotation(c) {
        err := io.Run(Fallback(c));
        next := 0;
      } else {
        var degree;
        degree, err := ScanMove(SearchTurn(c));
        next := rotation + degree;
      }
      ghost var after := io.RunCalls(s, calls);
      assert (io.Snap(), err) == after;
      if err.None? {
        assert next == if fallback then 0 else rotation + ScanDegree;
        ghost var rest := SearchF(after.0, next, c, fromStart);
        assert SearchOn(s, rotation, c, fromStart) == (rest.0, rest.1, [fallback] + rest.2);
      }
    }

    method DriveToSlot(slot: Vision.Marker) returns (e: Ending)
      requires Valid()
      modifies this, io, io.left, io.right, io.arm.board, io.grabber.board
      ensures Valid() && (e, State(), io.Snap()) == DriveToSlotF(slot, old(State()), old(io.Snap()))
    {
      if !hasToken {
        return Stopped(Failed(AssertionError));
      }
      var p := io.GotoMarker(slot, 70, SameCode, 0.3);
      if p.Halted? {
        return Stopped(p.stop);
      }
      if p == Reached {
        active := Some(Request(Phase.PlaceToken, []));
      } else if fromStart {
        var err := io.Move(Instr(Distance(0.1, 40.0)));
        if err.Some? {
          return EndingOf(err);
        }
        active := Some(Request(Phase.PlaceToken, []));
      } else if slotSearches >= 2 {
        active := Some(Request(Phase.PlaceToken, []));
      } else {
        active := Some(Request(SearchSlot, []));
      }
      return Finished;
    }

    method PlaceToken() returns (e: Ending)
      requires Valid()
      modifies this, io, io.left, io.right, io.arm.board, io.grabber.board
      ensures Valid() && (e, State(), io.Snap()) == PlaceTokenF(old(State()), old(io.Snap()))
    {
      ghost var g, s := State(), io.Snap();
      if !hasToken {
        return Stopped(Failed(AssertionError));
      }
      fromStart := false;
      slotSearches := 0;
      ghost var g1 := g.(fromStart := false, slotSearches := 0);
      assert State() == g1;
      var err := io.Run(PlaceCalls);
      ghost var a := io.RunCalls(s, PlaceCalls);
      assert (io.Snap(), err) == a;
      if err.Some? {
        return EndingOf(err);
      }
      hasToken := false;
      doneCount := doneCount + 1;
      active := Some(Request(TurnToToken, []));
      assert State() == SetState(g1.(hasToken := false, doneCount := g.doneCount + 1), TurnToToken, []);
      return Finished;
    }

    method NextToken() returns (e: Ending)
      requires Valid()
      modifies this, io, io.left, io.right, io.arm.board, io.grabber.board
      ensures Valid() && (e, State(), io.Snap()) == NextTokenF(old(State()), old(io.Snap()))
    {
      var err := io.Run(NextTokenCalls(doneCount));
      e := EndingOf(err);
      if err.None? {
        active := Some(Request(SearchToken, []));
      }
    }

    method DriveToToken(token: Vision.Marker) returns (e: Ending)
      requires Valid()
      modifies this, io, io.left, io.right, io.arm.board, io.grabber.board
      ensures Valid() && (e, State(), io.Snap()) == DriveToTokenF(token, old(State()), old(io.Snap()))
    {
      ghost var g, s := State(), io.Snap();
      if hasToken {
        return Stopped(Failed(AssertionError));
      }
      var result := io.GotoMarker(token, 70, SameCode, 0.0);
      ghost var p := io.GotoF(s, token, 70, SameCode, 0.0, false);
      assert (result, io.Snap()) == p && State() == g;
      match result
      case Reached =>
        active := Some(Request(PickToken, []));
        e := Finished;
      case Lost =>
        active := Some(Request(SearchToken, []));
        e := Finished;
      case Stuck =>
        var err := io.Run(StuckCalls());
        e := EndingOf(err);
        if err.None? {
          active := Some(Request(SearchToken, []));
        }
      case Halted(stop) =>
        e := Stopped(stop);
    }

    method PickupToken() returns (e: Ending)
      requires Valid()
      modifies this, io, io.left, io.right, io.arm.board, io.grabber.board
      ensures Valid() && (e, State(), io.Snap()) == PickupTokenF(old(State()), old(io.Snap()))
    {
      var holding := io.IsHoldingToken();
      var err := io.Run(PickupCalls(holding));
      if err.Some? {
        return EndingOf(err);
      }
      hasToken := true;
      active := Some(Request(TurnToSlot, []));
      return Finished;
    }

    method CheckHasToken() returns (r: Check)
      requires Valid()
      modifies io, io.left, io.right
      ensures Valid() && (r, io.Snap()) == CheckHasTokenF(old(io.Snap()))
    {
      var scan := io.GetMarkers(Some([TokenKinds[1]]));
      match scan
      case NoScan =>
        r := CheckStopped(OutOfScans);
      case Alarmed(a) =>
        r := CheckStopped(Interrupted(a));
      case Seen(ms) =>
        var tokens := Near(OwnTokens(ms, ourTokens));
        if |tokens| > 0 {
          r := Checked(true);
        } else {
          var holding := io.IsHoldingToken();
          r := Checked(holding);
        }
    }

    method NextSlot() returns (e: Ending)
      requires Valid()
      modifies this, io, io.left, io.right, io.arm.board, io.grabber.board
      ensures Valid() && (e, State(), io.Snap()) == NextSlotF(old(State()), old(io.Snap()))
    {
      var err := io.Run([MoveCall(Distance(-0.5, 50.0))]);
      if err.Some? {
        return EndingOf(err);
      }
      var check := CheckHasToken();
      if check.CheckStopped? {
        return Stopped(check.stop);
      }
      e := NextSlotWith(check.has);
    }

    /** next_slot after check_has_token answered `has`. */
    method NextSlotWith(has: bool) returns (e: Ending)
      requires Valid()
      modifies this, io, io.left, io.right, io.arm.board, io.grabber.board
      ensures Valid() && (e, State(), io.Snap()) == NextSlotChecked(old(State()), has, old(io.Snap()))
    {
      var err;
      if !has {
        err := io.Run(DropCalls);
        if err.Some? {
          return EndingOf(err);
        }
        hasToken := false;
        err := io.Run([MoveCall(Distance(-0.5, 80.0))]);
        e := EndingOf(err);
        if err.None? {
          active := Some(Request(SearchToken, []));
        }
        return;
      }
      err := io.Run(ReturnCalls(doneCount));
      e := EndingOf(err);
      if err.None? {
        active := Some(Request(SearchSlot, []));
      }
    }

    method StateInterrupted()
      requires Valid()
      modifies this, io, io.left, io.right, io.arm.board, io.grabber.board
      ensures Valid() && (State(), io.Snap()) == InterruptedF(old(State()), old(io.Snap()))
    {
      if onInterrupt == MoveAway {
        var err := io.Run(MoveAwayCalls);
        if err.None? {
          onInterrupt := NoContinuation;
        }
      }
    }

    /** The state machine's call of the active state's listener with its
        arguments. */
    method Dispatch(req: Request) returns (e: Ending)
      requires Valid()
      modifies this, io, io.left, io.right, io.arm.board, io.grabber.board
      ensures Valid() && (e, State(), io.Snap()) == DispatchF(req, old(State()), old(io.Snap()))
    {
      if |req.args| != Arity(req.phase) {
        return Stopped(Failed(TypeError));
      }
      match req.phase
      case Start => e := PresetStart();
      case SearchSlot => e := SearchFunc(Slots);
      case DriveToSlot => e := DriveToSlot(req.args[0]);
      case PlaceToken => e := PlaceToken();
      case TurnToToken => e := NextToken();
      case SearchToken => e := SearchFunc(Tokens);
      case DriveToToken => e := DriveToToken(req.args[0]);
      case PickToken => e := PickupToken();
      case TurnToSlot => e := NextSlot();
    }

    /** One change_state of the active state, with the marker callback
        watching for it. */
    method Activate() returns (a: Activation)
      requires Valid() && active.Some?
      modifies this, io, io.left, io.right, io.arm.board, io.grabber.board
      ensures Valid() && (a, State(), io.Snap()) == ActivateF(old(State()), old(io.Snap()))
    {
      var req := active.value;
      io.SetMarkerHandler(Watching(req.phase == SearchToken));
      var e := Dispatch(req);
      a := Settle(req, e);
    }

    /** State.action's handling of how the listener of `req` ended, with
        the game's interrupt handling. */
    method Settle(req: Request, e: Ending) returns (a: Activation)
      requires Valid()
      modifies this, io, io.left, io.right, io.arm.board, io.grabber.board
      ensures Valid() && (a, State(), io.Snap()) == Conclude(req, (e, old(State()), old(io.Snap())))
    {
      match e
      case Finished =>
        if active.Some? && active.value.phase == req.phase {
          active := None;
        }
        a := Ran(StateUtils.Returned);
      case Stopped(stop) =>
        match stop
        case OutOfScans =>
          a := ScansRanOut;
        case Failed(err) =>
          active := None;
          a := Ran(StateUtils.Raised(err));
        case Interrupted(alarm) =>
          if alarm == ObstacleAlarm {
            onInterrupt := MoveAway;
          } else {
            active := Some(Request(SearchToken, []));
            onInterrupt := NoContinuation;
          }
          StateInterrupted();
          a := Ran(StateUtils.Interrupted(AlarmInterrupt(alarm)));
    }

    /** startup: reset, then change to each next state for at most `rounds`
        rounds. */
    method Startup(rounds: nat) returns (end: GameEnd)
      requires Valid()
      modifies this, io, io.left, io.right, io.arm.board, io.grabber.board
      ensures Valid() && (end, State(), io.Snap()) == StartupF(old(State()), old(io.Snap()), rounds)
    {
      onInterrupt := NoContinuation;
      var err := Reset();
      if err.Some? {
        return Crashed(err.value);
      }
      end := Play(rounds);
    }

    /** startup's loop over the state machine's next states. */
    method Play(rounds: nat) returns (end: GameEnd)
      requires Valid()
      modifies this, io, io.left, io.right, io.arm.board, io.grabber.board
      ensures Valid() && (end, State(), io.Snap()) == RunF(old(State()), old(io.Snap()), rounds)
    {
      ghost var target := RunF(State(), io.Snap(), rounds);
      var remaining := rounds;
      var done: Option<GameEnd>;
      while true
        invariant Valid()
        invariant RunF(State(), io.Snap(), remaining) == target
        decreases remaining
      {
        done := Round(remaining, target);
        if done.Some? {
          return done.value;
        }
        remaining := remaining - 1;
      }
    }

    /** One pass of startup's loop with `remaining` rounds left: stop when
        no state is active, the rounds or the scans are used up, or a
        listener raised. */
    method Round(remaining: nat, ghost target: (GameEnd, Fields, Snapshot)) returns (done: Option<GameEnd>)
      requires Valid() && RunF(State(), io.Snap(), remaining) == target
      modifies this, io, io.left, io.right, io.arm.board, io.grabber.board
      ensures Valid()
      ensures done.Some? ==> (done.value, State(), io.Snap()) == target
      ensures done.None? ==> remaining > 0 && RunF(State(), io.Snap(), remaining - 1) == target
    {
      if active.None? {
        return Some(NoActiveState);
      }
      if remaining == 0 {
        return Some(RoundsExhausted);
      }
      var a := Activate();
      if a.ScansRanOut? {
        return Some(CameraExhausted);
      }
      if a.outcome.Raised? {
        return Some(Crashed(a.outcome.error));
      }
      done := None;
    }
  }
}
