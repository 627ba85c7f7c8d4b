/** An observer of tile computations that remembers every tile it has seen,
    so that it can tell a first computation from a re-computation. Logging is
    replaced by the returned report. */
module Monitor {

  /** An operator image, compared by identity; it carries the 32-bit hash code
      its class gives it. */
  datatype OperatorImage = OperatorImage(identity: nat, hashCode: int)

  /** The key of a tile computation. */
  datatype TileEvent = TileEvent(image: OperatorImage, tileX: int, tileY: int)

  /** What the printer reports for one tile computation. */
  datatype Report = Computed | Recomputed

  // ---------------------------------------------------------------------------
  // Equality and hash code of tile events

  /** Equal tile positions and the same image. */
  function Equals(a: TileEvent, b: TileEvent): (r: bool)
    ensures r <==> a == b
  {
    if a.tileX != b.tileX then false
    else if a.tileY != b.tileY then false
    else if a.image != b.image then false
    else true
  }

  const TwoTo32: int := 0x1_0000_0000
  const TwoTo31: int := 0x8000_0000

  /** Java's wrap-around of an integer to 32-bit two's complement. */
  function ToInt32(x: int): (r: int)
    ensures -TwoTo31 <= r < TwoTo31
    ensures (x - r) % TwoTo32 == 0
  {
    var m := x % TwoTo32;
    if m >= TwoTo31 then m - TwoTo32 else m
  }

  /** The hash code in 32-bit arithmetic: 31 * (31 * h + tileX) + tileY. */
  function HashCode(e: TileEvent): (r: int)
    ensures -TwoTo31 <= r < TwoTo31
    ensures r == ToInt32(961 * e.image.hashCode + 31 * e.tileX + e.tileY)
  {
    var result := ToInt32(e.image.hashCode);
    var result1 := ToInt32(31 * result + e.tileX);
    var result2 := ToInt32(31 * result1 + e.tileY);
    HashCodeClosedForm(e.image.hashCode, e.tileX, e.tileY);
    result2
  }

  /** Wrapping after every step equals wrapping the exact polynomial once. */
  lemma HashCodeClosedForm(h: int, x: int, y: int)
    ensures ToInt32(31 * ToInt32(31 * ToInt32(h) + x) + y) == ToInt32(961 * h + 31 * x + y)
  {
  }

  /** Equal events have equal hash codes, as a hash set requires. */
  lemma EqualEventsHaveEqualHashCodes(a: TileEvent, b: TileEvent)
    requires Equals(a, b)
    ensures HashCode(a) == HashCode(b)
  {
  }

  /** The converse fails: tile (0, 31) and tile (1, 0) of one image collide,
      so the recorded set must tell them apart by equality. */
  lemma HashCodesCollide(image: OperatorImage)
    ensures TileEvent(image, 0, 31) != TileEvent(image, 1, 0)
    ensures HashCode(TileEvent(image, 0, 31)) == HashCode(TileEvent(image, 1, 0))
  {
  }

  // ---------------------------------------------------------------------------
  // Recording

  /** One tile computation: a key not yet recorded is added and reported as
      computed; a recorded key leaves the set as it is and is reported as
      re-computed. */
  function Record(recorded: set<TileEvent>, e: TileEvent): (r: (set<TileEvent>, Report))
    ensures r.0 == recorded + {e}
    ensures r.1 == Computed <==> e !in recorded
  {
    if e !in recorded then (recorded + {e}, Computed) else (recorded, Recomputed)
  }

  /** A sequence of tile computations, one after the other: the final set and
      the report for each computation. */
  function Replay(recorded: set<TileEvent>, events: seq<TileEvent>): (set<TileEvent>, seq<Report>) {
    if events == [] then (recorded, [])
    else
      var (before, reports) := Replay(recorded, events[..|events| - 1]);
      var (after, report) := Record(before, events[|events| - 1]);
      (after, reports + [report])
  }

  /** Over any sequence of computations, a computation is reported as new
      exactly when its key was neither recorded at the start nor computed
      before it in the sequence; afterwards every key seen is recorded. */
  lemma {:induction false} ReplayReportsFirstComputations(recorded: set<TileEvent>, events: seq<TileEvent>)
    ensures var (final, reports) := Replay(recorded, events);
      && |reports| == |events|
      && (forall e :: e in final <==> e in recorded || e in events)
      && (forall i :: 0 <= i < |events| ==>
            (reports[i] == Computed <==> events[i] !in recorded && events[i] !in events[..i]))
  {
    if events != [] {
      var n := |events| - 1;
      var init := events[..n];
      ReplayReportsFirstComputations(recorded, init);
      var (before, reports) := Replay(recorded, init);
      var (after, report) := Record(before, events[n]);
      assert Replay(recorded, events) == (after, reports + [report]);
      assert events[..n] == init;
      assert forall i :: 0 <= i < n ==> events[i] == init[i] && events[..i] == init[..i];
      assert forall e :: e in events <==> e in init || e == events[n];
    }
  }

  /** The printer: the set of tile keys recorded since the last stop. */
  class TileComputationPrinter {
    var recordedEventSet: set<TileEvent>

    constructor ()
      ensures recordedEventSet == {}
    {
      recordedEventSet := {};
    }

    /** Starting only logs; the recorded set is left as it is. */
    method Start()
      ensures recordedEventSet == old(recordedEventSet)
    {
    }

    method TileComputed(event: TileEvent) returns (report: Report)
      modifies this`recordedEventSet
      ensures (recordedEventSet, report) == Record(old(recordedEventSet), event)
      ensures old(recordedEventSet) <= recordedEventSet
      ensures |recordedEventSet| <= |old(recordedEventSet)| + 1
    {
      var newEvent := false;
      if event !in recordedEventSet {
        recordedEventSet := recordedEventSet + {event};
        newEvent := true;
      }
      if newEvent {
        report := Computed;
      } else {
        report := Recomputed;
      }
    }

    /** Stopping forgets every recorded key, so the next computation of any
        tile is reported as new again. */
    method Stop()
      modifies this`recordedEventSet
      ensures recordedEventSet == {}
      ensures forall e :: Record(recordedEventSet, e).1 == Computed
    {
      recordedEventSet := {};
    }
  }
}
