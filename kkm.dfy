/**
 * The in-memory visit tables of kkm.py: visits of tracked people keyed by the
 * lower-cased computer name, receipts from the till matched to the visit whose
 * time range overlaps them most, and visit end times and states refreshed from
 * the tracker's messages. Times are integer seconds; a time range is a pair of
 * them. The message streams, the database and the time-zone handling are not
 * part of this model.
 */
module KkmModel {
  import opened Common

  /** Only receipts from this computer are matched to visits. */
  const ReceiptComputer := "AP29Kassa1"
  /** The key of the visit list receipts are matched against. */
  const ReceiptKey := Lower(ReceiptComputer)
  /** The only track state that is copied onto a visit. */
  const FinalState := 4

  // ---------------------------------------------------------------------------
  // Time ranges
  // ---------------------------------------------------------------------------

  /** A closed range of times, in seconds. */
  datatype TimeRange = TimeRange(start: int, end: int)

  function Max(a: int, b: int): int { if a < b then b else a }
  function Min(a: int, b: int): int { if a < b then a else b }

  /** Two ranges intersect when they share at least one instant; ranges that touch intersect. */
  predicate Intersects(a: TimeRange, b: TimeRange) {
    Max(a.start, b.start) <= Min(a.end, b.end)
  }

  /** Length in seconds of the intersection of two ranges. */
  function OverlapSeconds(a: TimeRange, b: TimeRange): int {
    Min(a.end, b.end) - Max(a.start, b.start)
  }

  /** Intersection is symmetric, and intersecting ranges overlap by a non-negative length. */
  lemma IntersectsSymmetric(a: TimeRange, b: TimeRange)
    ensures Intersects(a, b) <==> Intersects(b, a)
    ensures OverlapSeconds(a, b) == OverlapSeconds(b, a)
    ensures Intersects(a, b) <==> OverlapSeconds(a, b) >= 0
  {
  }

  // ---------------------------------------------------------------------------
  // Keys
  // ---------------------------------------------------------------------------

  /** `str.lower()` on one character, for the ASCII letters. */
  function LowerChar(c: char): char {
    if 'A' <= c <= 'Z' then (c as int + ('a' as int - 'A' as int)) as char else c
  }

  /** `str.lower()`, for the ASCII letters. */
  function Lower(s: string): string {
    seq(|s|, i requires 0 <= i < |s| => LowerChar(s[i]))
  }

  /** Lower-casing keeps every '-' where it was and adds none. */
  lemma LowerKeepsDashes(s: string)
    ensures |Lower(s)| == |s|
    ensures forall i :: 0 <= i < |s| ==> (Lower(s)[i] == '-' <==> s[i] == '-')
  {
  }

  /** `s.split('-')[0]`: the part of `s` before its first '-', or all of `s`. */
  function BeforeDash(s: string): string
    decreases |s|
  {
    if s == [] || s[0] == '-' then [] else [s[0]] + BeforeDash(s[1..])
  }

  /** The part before the first '-' is a prefix without '-', ending at a '-' or at the end. */
  lemma {:induction false} BeforeDashSpec(s: string)
    ensures var p := BeforeDash(s);
      && |p| <= |s| && p == s[..|p|]
      && (forall i :: 0 <= i < |p| ==> p[i] != '-')
      && (|p| == |s| || s[|p|] == '-')
    decreases |s|
  {
    if s != [] && s[0] != '-' {
      BeforeDashSpec(s[1..]);
    }
  }

  /** The visit-list key of a track message's key: lower-cased, up to the first '-'. */
  function KeyPrefix(key: string): string {
    BeforeDash(Lower(key))
  }

  /** The key prefix is the lower-cased key cut just before its first '-'; a key without '-' is only lower-cased. */
  lemma KeyPrefixSpec(key: string)
    ensures var p := KeyPrefix(key);
      && |p| <= |key| && p == Lower(key)[..|p|]
      && (forall i :: 0 <= i < |p| ==> key[i] != '-')
      && (|p| == |key| || key[|p|] == '-')
    ensures (forall i :: 0 <= i < |key| ==> key[i] != '-') ==> KeyPrefix(key) == Lower(key)
  {
    BeforeDashSpec(Lower(key));
    LowerKeepsDashes(key);
  }

  // ---------------------------------------------------------------------------
  // Messages and visits
  // ---------------------------------------------------------------------------

  /** A visit as it arrives on the visit stream; times are seconds. */
  datatype VisitMessage = VisitMessage(trackId: string, computer: string, ap: string, state: int, faceId: string,
                                       startTs: int, lastTs: int, kkmGuid: Option<string>)

  /** A track's last-seen time and, possibly, its state. */
  datatype TrackLastTs = TrackLastTs(trackId: string, lastTs: int, state: Option<int>)

  /** A receipt from a till: sale time `date`, opening time `startTsIso`. */
  datatype Receipt = Receipt(guid: string, date: int, computer: string, customerId: string, customerPhone: string,
                             startTsIso: int)

  /** A stored visit; the lists and the persisted table share these objects. */
  class Visit {
    const trackId: string
    const computer: string
    const ap: string
    var state: int
    const faceId: string
    var startTs: int
    var lastTs: int
    var timeRange: TimeRange
    var kkmGuid: Option<string>

    /** A visit read from a message, its time range spanning its start and last times. */
    constructor (msg: VisitMessage)
      ensures trackId == msg.trackId && computer == msg.computer && ap == msg.ap && state == msg.state
      ensures faceId == msg.faceId && startTs == msg.startTs && lastTs == msg.lastTs && kkmGuid == msg.kkmGuid
      ensures timeRange == TimeRange(msg.startTs, msg.lastTs)
    {
      trackId := msg.trackId;
      computer := msg.computer;
      ap := msg.ap;
      state := msg.state;
      faceId := msg.faceId;
      startTs := msg.startTs;
      lastTs := msg.lastTs;
      timeRange := TimeRange(msg.startTs, msg.lastTs);
      kkmGuid := msg.kkmGuid;
    }
  }

  // ---------------------------------------------------------------------------
  // Choosing the visit a receipt belongs to
  // ---------------------------------------------------------------------------

  /** What the receipt matching reads of a visit. */
  datatype VisitView = VisitView(timeRange: TimeRange, kkmGuid: Option<string>)

  function ViewOf(v: Visit): VisitView
    reads v
  {
    VisitView(v.timeRange, v.kkmGuid)
  }

  function Views(vs: seq<Visit>): (r: seq<VisitView>)
    reads set v | v in vs
    ensures |r| == |vs| && forall i :: 0 <= i < |vs| ==> r[i] == ViewOf(vs[i])
    decreases |vs|
  {
    if vs == [] then [] else [ViewOf(vs[0])] + Views(vs[1..])
  }

  /** A visit may take the receipt: their ranges intersect and it has no receipt yet. */
  predicate IsCandidate(receipt: TimeRange, v: VisitView) {
    Intersects(receipt, v.timeRange) && v.kkmGuid.None?
  }

  /** Positions of the candidates, in list order. */
  function Candidates(receipt: TimeRange, vs: seq<VisitView>): (cs: seq<int>)
    ensures forall k :: 0 <= k < |cs| ==> 0 <= cs[k] < |vs|
    decreases |vs|
  {
    if vs == [] then []
    else
      var n := |vs| - 1;
      Candidates(receipt, vs[..n]) + (if IsCandidate(receipt, vs[n]) then [n] else [])
  }

  /** Python's `max(cands, key=overlap, default=False)`: the first candidate of largest overlap. */
  function FirstMax(receipt: TimeRange, vs: seq<VisitView>, cands: seq<int>): (r: Option<int>)
    requires forall k :: 0 <= k < |cands| ==> 0 <= cands[k] < |vs|
    ensures r.Some? ==> r.value in cands
    decreases |cands|
  {
    if cands == [] then None
    else
      var n := |cands| - 1;
      var best := FirstMax(receipt, vs, cands[..n]);
      if best.None? then Some(cands[n])
      else if OverlapSeconds(receipt, vs[cands[n]].timeRange) > OverlapSeconds(receipt, vs[best.value].timeRange)
      then Some(cands[n])
      else best
  }

  /** The position of the visit a receipt over `receipt` goes to, if any. */
  function SelectVisit(receipt: TimeRange, vs: seq<VisitView>): Option<int> {
    FirstMax(receipt, vs, Candidates(receipt, vs))
  }

  lemma {:induction false} CandidatesExact(receipt: TimeRange, vs: seq<VisitView>)
    ensures var cs := Candidates(receipt, vs);
      && (forall j, k :: 0 <= j < k < |cs| ==> cs[j] < cs[k])
      && (forall i :: 0 <= i < |vs| ==> (i in cs <==> IsCandidate(receipt, vs[i])))
    decreases |vs|
  {
    if vs != [] {
      var n := |vs| - 1;
      CandidatesExact(receipt, vs[..n]);
      assert forall i :: 0 <= i < n ==> vs[..n][i] == vs[i];
    }
  }

  /** Over increasing positions, `FirstMax` picks one of largest overlap, strictly larger than every earlier one's. */
  lemma {:induction false} FirstMaxSpec(receipt: TimeRange, vs: seq<VisitView>, cands: seq<int>)
    requires forall k :: 0 <= k < |cands| ==> 0 <= cands[k] < |vs|
    requires forall j, k :: 0 <= j < k < |cands| ==> cands[j] < cands[k]
    ensures FirstMax(receipt, vs, cands).None? <==> cands == []
    ensures var r := FirstMax(receipt, vs, cands);
      r.Some? ==>
        && (forall c :: c in cands ==> OverlapSeconds(receipt, vs[c].timeRange) <= OverlapSeconds(receipt, vs[r.value].timeRange))
        && (forall c :: c in cands && c < r.value ==> OverlapSeconds(receipt, vs[c].timeRange) < OverlapSeconds(receipt, vs[r.value].timeRange))
    decreases |cands|
  {
    if cands != [] {
      var n := |cands| - 1;
      var prefix := cands[..n];
      FirstMaxSpec(receipt, vs, prefix);
      assert forall c :: c in cands ==> c in prefix || c == cands[n];
      var best := FirstMax(receipt, vs, prefix);
      if best.Some? {
        assert forall c :: c in prefix ==> c < cands[n];
      }
    }
  }

  /**
   * The receipt goes to nothing exactly when no visit is a candidate; otherwise to
   * a candidate of largest overlap, the first one in list order among equals.
   */
  lemma SelectVisitSpec(receipt: TimeRange, vs: seq<VisitView>)
    ensures SelectVisit(receipt, vs).None? <==> forall i :: 0 <= i < |vs| ==> !IsCandidate(receipt, vs[i])
    ensures var r := SelectVisit(receipt, vs);
      r.Some? ==>
        && 0 <= r.value < |vs| && IsCandidate(receipt, vs[r.value])
        && (forall j :: 0 <= j < |vs| && IsCandidate(receipt, vs[j]) ==>
              OverlapSeconds(receipt, vs[j].timeRange) <= OverlapSeconds(receipt, vs[r.value].timeRange))
        && (forall j :: 0 <= j < r.value && IsCandidate(receipt, vs[j]) ==>
              OverlapSeconds(receipt, vs[j].timeRange) < OverlapSeconds(receipt, vs[r.value].timeRange))
  {
    var cs := Candidates(receipt, vs);
    CandidatesExact(receipt, vs);
    FirstMaxSpec(receipt, vs, cs);
    if cs != [] {
      assert cs[0] in cs;
    }
  }

  // ---------------------------------------------------------------------------
  // The tables
  // ---------------------------------------------------------------------------

  /** No two visits of a list share a track id. */
  predicate UniqueTrackIds(vs: seq<Visit>) {
    forall i, j :: 0 <= i < j < |vs| ==> vs[i].trackId != vs[j].trackId
  }

  /** Some visit of the list has the track id. */
  predicate HasTrack(vs: seq<Visit>, trackId: string) {
    exists i :: 0 <= i < |vs| && vs[i].trackId == trackId
  }

  /** `dict.setdefault(key, [])`, as far as the dictionary is concerned. */
  function SetDefault(m: map<string, seq<Visit>>, key: string): (r: map<string, seq<Visit>>)
    ensures key in r && r[key] == (if key in m then m[key] else [])
    ensures forall k :: k != key ==> (k in r <==> k in m) && (k in m ==> r[k] == m[k])
  {
    if key in m then m else m[key := []]
  }

  /** A visit changed by a receipt: only its receipt guid is set. */
  twostate predicate GuidSet(v: Visit, guid: string)
    reads v
  {
    && v.kkmGuid == Some(guid)
    && v.state == old(v.state) && v.startTs == old(v.startTs) && v.lastTs == old(v.lastTs)
    && v.timeRange == old(v.timeRange)
  }

  /** A visit refreshed by a track message: new last time and range, state only from a final state. */
  twostate predicate Refreshed(v: Visit, track: TrackLastTs)
    reads v
  {
    && v.lastTs == track.lastTs
    && v.startTs == old(v.startTs)
    && v.timeRange == TimeRange(old(v.startTs), track.lastTs)
    && v.state == (if track.state == Some(FinalState) then FinalState else old(v.state))
    && v.kkmGuid == old(v.kkmGuid)
  }

  /** The application object holding the tables. */
  class KkmVisits {
    /** Visits per lower-cased computer name. */
    var tableVisits: map<string, seq<Visit>>
    /** Visits that received a receipt, by track id. */
    var persistTableVisits: map<string, Visit>

    /** Every list has unique track ids and holds only visits of its computer. */
    ghost predicate Valid()
      reads this
    {
      forall k | k in tableVisits ::
        && UniqueTrackIds(tableVisits[k])
        && forall i :: 0 <= i < |tableVisits[k]| ==> Lower(tableVisits[k][i].computer) == k
    }

    /** The list under `key`, or none. */
    function ListAt(key: string): seq<Visit>
      reads this
    {
      if key in tableVisits then tableVisits[key] else []
    }

    /** The visits of the list under `key`. */
    function Listed(key: string): set<Visit>
      reads this
    {
      set v | v in ListAt(key)
    }

    constructor ()
      ensures Valid() && tableVisits == map[] && persistTableVisits == map[]
    {
      tableVisits := map[];
      persistTableVisits := map[];
    }

    /**
     * The matching of one receipt against one visit list: the chosen visit, if
     * any, takes the receipt's guid and is persisted under its track id.
     */
    method MatchReceipt(kassaTracks: seq<Visit>, receiptRange: TimeRange, guid: string)
      requires UniqueTrackIds(kassaTracks)
      modifies this`persistTableVisits, set v | v in kassaTracks
      ensures match SelectVisit(receiptRange, old(Views(kassaTracks)))
              case None =>
                && persistTableVisits == old(persistTableVisits)
                && forall j :: 0 <= j < |kassaTracks| ==> unchanged(kassaTracks[j])
              case Some(i) =>
                && 0 <= i < |kassaTracks|
                && old(kassaTracks[i].kkmGuid).None?
                && GuidSet(kassaTracks[i], guid)
                && persistTableVisits == old(persistTableVisits)[kassaTracks[i].trackId := kassaTracks[i]]
                && forall j :: 0 <= j < |kassaTracks| && j != i ==> unchanged(kassaTracks[j])
    {
      var views := Views(kassaTracks);
      SelectVisitSpec(receiptRange, views);
      match SelectVisit(receiptRange, views) {
        case None =>
        case Some(i) =>
          var visit := kassaTracks[i];
          assert forall j :: 0 <= j < |kassaTracks| && j != i ==> kassaTracks[j] != visit;
          visit.kkmGuid := Some(guid);
          persistTableVisits := persistTableVisits[visit.trackId := visit];
      }
    }

    /**
     * A receipt arrives. Receipts from `ReceiptComputer` are matched against the
     * list under its lower-cased name (created empty when missing): the chosen
     * visit, if any, takes the receipt's guid and is persisted under its track id.
     * A visit that already holds a guid keeps it.
     */
    method ProcessKkm(kkm: Receipt)
      requires Valid()
      modifies this, Listed(ReceiptKey)
      ensures Valid()
      ensures kkm.computer != ReceiptComputer ==>
                && tableVisits == old(tableVisits) && persistTableVisits == old(persistTableVisits)
                && forall j :: 0 <= j < |old(ListAt(ReceiptKey))| ==> unchanged(old(ListAt(ReceiptKey))[j])
      ensures kkm.computer == ReceiptComputer ==> tableVisits == SetDefault(old(tableVisits), ReceiptKey)
      ensures kkm.computer == ReceiptComputer ==>
                var list := old(ListAt(ReceiptKey));
                match SelectVisit(TimeRange(kkm.startTsIso, kkm.date), old(Views(list)))
                case None =>
                  && persistTableVisits == old(persistTableVisits)
                  && forall j :: 0 <= j < |list| ==> unchanged(list[j])
                case Some(i) =>
                  && 0 <= i < |list|
                  && old(list[i].kkmGuid).None?
                  && GuidSet(list[i], kkm.guid)
                  && persistTableVisits == old(persistTableVisits)[list[i].trackId := list[i]]
                  && forall j :: 0 <= j < |list| && j != i ==> unchanged(list[j])
    {
      if kkm.computer != ReceiptComputer {
        return;
      }
      var key := Lower(kkm.computer);
      assert key == ReceiptKey;
      if key !in tableVisits {
        tableVisits := tableVisits[key := []];
      }
      var kassaTracks := tableVisits[key];
      MatchReceipt(kassaTracks, TimeRange(kkm.startTsIso, kkm.date), kkm.guid);
    }

    /**
     * A visit arrives. It is appended to the list under its lower-cased computer
     * name (created empty when missing) unless that list already holds its track
     * id; then the stored visits are left as they are.
     */
    method ProcessVisits(msg: VisitMessage)
      requires Valid()
      modifies this
      ensures Valid()
      ensures persistTableVisits == old(persistTableVisits)
      ensures var key := Lower(msg.computer);
        && key in tableVisits
        && tableVisits == old(tableVisits)[key := tableVisits[key]]
        && (HasTrack(old(ListAt(key)), msg.trackId) ==> tableVisits[key] == old(ListAt(key)))
        && (!HasTrack(old(ListAt(key)), msg.trackId) ==>
              var list := tableVisits[key];
              && |list| == |old(ListAt(key))| + 1
              && list[..|list| - 1] == old(ListAt(key))
              && fresh(list[|list| - 1])
              && list[|list| - 1].trackId == msg.trackId && list[|list| - 1].computer == msg.computer
              && list[|list| - 1].ap == msg.ap && list[|list| - 1].faceId == msg.faceId
              && list[|list| - 1].state == msg.state && list[|list| - 1].startTs == msg.startTs
              && list[|list| - 1].lastTs == msg.lastTs && list[|list| - 1].kkmGuid == msg.kkmGuid
              && list[|list| - 1].timeRange == TimeRange(msg.startTs, msg.lastTs))
    {
      var vis := new Visit(msg);
      var key := Lower(vis.computer);
      if key !in tableVisits {
        tableVisits := tableVisits[key := []];
      }
      var kassaTracks := tableVisits[key];
      var h := true;
      var idx := 0;
      while idx < |kassaTracks|
        invariant 0 <= idx <= |kassaTracks|
        invariant h <==> !HasTrack(kassaTracks[..idx], vis.trackId)
        invariant h ==> vis.lastTs == msg.lastTs && vis.timeRange == TimeRange(msg.startTs, msg.lastTs)
        invariant vis.state == msg.state && vis.startTs == msg.startTs && vis.kkmGuid == msg.kkmGuid
        modifies vis
      {
        var t := kassaTracks[idx];
        if t.trackId == vis.trackId {
          vis.lastTs := t.lastTs;
          vis.timeRange := t.timeRange;
          h := false;
        }
        assert kassaTracks[..idx + 1] == kassaTracks[..idx] + [t];
        idx := idx + 1;
      }
      assert kassaTracks[..idx] == kassaTracks;
      if h {
        tableVisits := tableVisits[key := kassaTracks + [vis]];
        assert (kassaTracks + [vis])[..|kassaTracks|] == kassaTracks;
      }
    }

    /**
     * A track message arrives under `key`. Every visit with the message's track id
     * in the list under the key's prefix (created empty when missing) gets the
     * message's time as last time and a range from its start to it; its state is
     * set only when the message carries the final state.
     */
    method ProcessTracks(key: string, track: TrackLastTs)
      requires Valid()
      modifies this, Listed(KeyPrefix(key))
      ensures Valid()
      ensures persistTableVisits == old(persistTableVisits)
      ensures tableVisits == SetDefault(old(tableVisits), KeyPrefix(key))
      ensures forall v | v in old(ListAt(KeyPrefix(key))) ::
                if v.trackId == track.trackId then Refreshed(v, track) else unchanged(v)
    {
      var localLastTs := track.lastTs;
      var prefix := KeyPrefix(key);
      if prefix !in tableVisits {
        tableVisits := tableVisits[prefix := []];
      }
      var kassaTracks := tableVisits[prefix];
      assert UniqueTrackIds(kassaTracks);
      var idx := 0;
      while idx < |kassaTracks|
        invariant 0 <= idx <= |kassaTracks|
        invariant tableVisits == SetDefault(old(tableVisits), prefix)
        invariant persistTableVisits == old(persistTableVisits)
        invariant forall j :: 0 <= j < idx ==>
                    if kassaTracks[j].trackId == track.trackId then Refreshed(kassaTracks[j], track)
                    else unchanged(kassaTracks[j])
        invariant forall j :: idx <= j < |kassaTracks| ==> unchanged(kassaTracks[j])
      {
        var e := kassaTracks[idx];
        if e.trackId == track.trackId {
          e.lastTs := localLastTs;
          e.timeRange := TimeRange(e.startTs, e.lastTs);
          if track.state == Some(FinalState) {
            e.state := track.state.value;
          }
        }
        assert forall j :: 0 <= j < |kassaTracks| && j != idx ==> kassaTracks[j] != e;
        idx := idx + 1;
      }
    }
  }
}
