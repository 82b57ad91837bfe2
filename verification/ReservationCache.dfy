/** The Redis reservation cache: a short-lived id key and a longer-lived data key for each
    reservation. Times are in whole units of one clock. */
module ReservationCache {
  import opened Types
  import opened Events

  datatype Stored = Stored(info: ReservationInfo, expires: int)

  /** The live keys, each with the time at which it expires. */
  datatype Keys = Keys(ids: map<ReservationId, int>, data: map<ReservationId, Stored>)

  datatype Ttl = Ttl(id: nat, data: nat)

  /** How `Store` ends: its two writes are separate, and a failed write may have been applied. */
  datatype StoreFault = StoreOk | IdFails(applied: bool) | DataFails(applied: bool)

  datatype DeleteFault = DeleteOk | DeleteFails(applied: bool)

  datatype RefreshFault = RefreshOk | RefreshFails(applied: bool)

  /** The command at which a cleanup query fails, if one does. */
  datatype QueryFault = QueryOk | IdScanFails | DataScanFails | FetchFails

  // ---------- the effect of one command ----------

  function Tick(k: Keys, now: int): Keys {
    Keys(map r | r in k.ids && now < k.ids[r] :: k.ids[r],
         map r | r in k.data && now < k.data[r].expires :: k.data[r])
  }

  function StoreIn(k: Keys, ttl: Ttl, info: ReservationInfo, now: int, f: StoreFault): Keys {
    var ids := if f == IdFails(false) then k.ids else k.ids[info.id := now + ttl.id];
    var data := if f.IdFails? || f == DataFails(false) then k.data
                else k.data[info.id := Stored(info, now + ttl.data)];
    Keys(ids, data)
  }

  function RefreshIn(k: Keys, ttl: Ttl, r: ReservationId, now: int): Keys {
    if r in k.ids then k.(ids := k.ids[r := now + ttl.id]) else k
  }

  function DropData(k: Keys, r: ReservationId): Keys {
    k.(data := k.data - {r})
  }

  function DropId(k: Keys, r: ReservationId): Keys {
    k.(ids := k.ids - {r})
  }

  function AfterDeleteID(k: Keys, r: ReservationId, fault: DeleteFault): Keys {
    if fault == DeleteFails(false) then k else DropId(k, r)
  }

  function Flatten(batches: seq<seq<ReservationId>>): seq<ReservationId> {
    if batches == [] then [] else Flatten(batches[..|batches| - 1]) + batches[|batches| - 1]
  }

  function Members(keys: seq<ReservationId>): set<ReservationId> {
    set r | r in keys
  }

  /** What a cleanup pass reports when its scans returned `active` and `scanned`. */
  function Report(k: Keys, active: set<ReservationId>, scanned: seq<ReservationId>): seq<ReservationInfo> {
    if scanned == [] then []
    else
      var r := scanned[|scanned| - 1];
      Report(k, active, scanned[..|scanned| - 1])
      + (if r in k.data && k.data[r].info.id !in active then [k.data[r].info] else [])
  }

  /** What the whole query answers; None is an error. */
  function QueryAnswer(k: Keys, idBatches: seq<seq<ReservationId>>, dataBatches: seq<seq<ReservationId>>,
                       fault: QueryFault): Option<seq<ReservationInfo>> {
    if fault.IdScanFails? || fault.DataScanFails? || (fault.FetchFails? && Flatten(dataBatches) != []) then None
    else Some(Report(k, Members(Flatten(idBatches)), Flatten(dataBatches)))
  }

  class Cache {
    const ttl: Ttl
    var ids: map<ReservationId, int>
    var data: map<ReservationId, Stored>

    function Contents(): Keys
      reads this
    {
      Keys(ids, data)
    }

    constructor (ttl: Ttl)
      ensures this.ttl == ttl && Contents() == Keys(map[], map[])
    {
      this.ttl := ttl;
      ids, data := map[], map[];
    }

    /** The server's own expiry of keys whose time has come. */
    method Expire(now: int)
      modifies this
      ensures Contents() == Tick(old(Contents()), now)
    {
      ids := map r | r in ids && now < ids[r] :: ids[r];
      data := map r | r in data && now < data[r].expires :: data[r];
    }

    method Store(info: ReservationInfo, now: int, fault: StoreFault) returns (ok: bool)
      modifies this
      ensures Contents() == StoreIn(old(Contents()), ttl, info, now, fault)
      ensures ok <==> fault.StoreOk?
      ensures ok ==> info.id in ids && info.id in data && data[info.id].info == info
      ensures data != old(data) ==> info.id in ids && ids[info.id] == now + ttl.id
      ensures ids - {info.id} == old(ids) - {info.id} && data - {info.id} == old(data) - {info.id}
    {
      if fault == IdFails(false) {
        return false;
      }
      ids := ids[info.id := now + ttl.id];
      if fault.IdFails? {
        return false;
      }
      if fault == DataFails(false) {
        return false;
      }
      data := data[info.id := Stored(info, now + ttl.data)];
      return fault.StoreOk?;
    }

    /** Extends the id key, never the data key, and reports whether the id key existed; None
        when the command failed, with or without effect. */
    method Refresh(r: ReservationId, now: int, fault: RefreshFault) returns (refreshed: Option<bool>)
      modifies this
      ensures refreshed == if fault.RefreshOk? then Some(r in old(ids)) else None
      ensures Contents() == if fault == RefreshFails(false) then old(Contents())
                            else RefreshIn(old(Contents()), ttl, r, now)
      ensures ids.Keys == old(ids).Keys && data == old(data)
    {
      if fault == RefreshFails(false) {
        return None;
      }
      var present := r in ids;
      if present {
        ids := ids[r := now + ttl.id];
      }
      return if fault.RefreshOk? then Some(present) else None;
    }

    /** `deleted` is None when the command failed. */
    method DeleteData(r: ReservationId, fault: DeleteFault) returns (deleted: Option<bool>)
      modifies this
      ensures deleted == if fault.DeleteOk? then Some(r in old(data)) else None
      ensures Contents() == if fault == DeleteFails(false) then old(Contents())
                            else DropData(old(Contents()), r)
    {
      if fault == DeleteFails(false) {
        return None;
      }
      var present := r in data;
      data := data - {r};
      return if fault.DeleteOk? then Some(present) else None;
    }

    method DeleteID(r: ReservationId, fault: DeleteFault) returns (deleted: Option<bool>)
      modifies this
      ensures deleted == if fault.DeleteOk? then Some(r in old(ids)) else None
      ensures Contents() == AfterDeleteID(old(Contents()), r, fault)
    {
      if fault == DeleteFails(false) {
        return None;
      }
      var present := r in ids;
      ids := ids - {r};
      return if fault.DeleteOk? then Some(present) else None;
    }

    /** The cleanup query. The batches are the answers of the two cursor scans, which may
        repeat keys; values are fetched from the keys live at the end. A failed command ends
        the query, and nothing is fetched when no data key was found. */
    method GetExpired(idBatches: seq<seq<ReservationId>>, dataBatches: seq<seq<ReservationId>>, fault: QueryFault)
      returns (expired: Option<seq<ReservationInfo>>)
      ensures expired == QueryAnswer(Contents(), idBatches, dataBatches, fault)
    {
      var idKeys: seq<ReservationId> := [];
      var i := 0;
      while i < |idBatches|
        invariant 0 <= i <= |idBatches|
        invariant idKeys == Flatten(idBatches[..i])
      {
        assert idBatches[..i + 1][..i] == idBatches[..i];
        idKeys := idKeys + idBatches[i];
        i := i + 1;
      }
      assert idBatches[..i] == idBatches;
      if fault.IdScanFails? {
        return None;
      }

      var dataKeys: seq<ReservationId> := [];
      i := 0;
      while i < |dataBatches|
        invariant 0 <= i <= |dataBatches|
        invariant dataKeys == Flatten(dataBatches[..i])
      {
        assert dataBatches[..i + 1][..i] == dataBatches[..i];
        dataKeys := dataKeys + dataBatches[i];
        i := i + 1;
      }
      assert dataBatches[..i] == dataBatches;
      if fault.DataScanFails? {
        return None;
      }

      if |dataKeys| == 0 {
        return Some([]);
      }

      var active: set<ReservationId> := {};
      i := 0;
      while i < |idKeys|
        invariant 0 <= i <= |idKeys|
        invariant active == Members(idKeys[..i])
      {
        active := active + {idKeys[i]};
        i := i + 1;
      }
      assert idKeys[..i] == idKeys;
      if fault.FetchFails? {
        return None;
      }

      var reported: seq<ReservationInfo> := [];
      i := 0;
      while i < |dataKeys|
        invariant 0 <= i <= |dataKeys|
        invariant reported == Report(Contents(), active, dataKeys[..i])
      {
        assert dataKeys[..i + 1][..i] == dataKeys[..i];
        var r := dataKeys[i];
        if r in data {
          var info := data[r].info;
          if info.id !in active {
            reported := reported + [info];
          }
        }
        i := i + 1;
      }
      assert dataKeys[..i] == dataKeys;
      return Some(reported);
    }
  }

  // ---------- what a cleanup pass reports ----------

  /** Every data entry describes the reservation it is filed under. */
  ghost predicate WellKeyed(k: Keys) {
    forall r :: r in k.data ==> k.data[r].info.id == r
  }

  /** No Store happened from `a` to `b`: keys have only disappeared or been extended. */
  ghost predicate Shrinks(a: Keys, b: Keys) {
    && b.ids.Keys <= a.ids.Keys
    && b.data.Keys <= a.data.Keys
    && forall r :: r in b.data ==> b.data[r] == a.data[r]
  }

  /** A scan that ran while the key set went from `before` down to `after`: it returns what
      was there throughout, and nothing that was never there. */
  ghost predicate ScanOf(keys: seq<ReservationId>, before: set<ReservationId>, after: set<ReservationId>) {
    && (forall r :: r in after ==> r in keys)
    && (forall r :: r in keys ==> r in before)
  }

  lemma {:induction false} ReportMembers(k: Keys, active: set<ReservationId>, scanned: seq<ReservationId>,
                                         info: ReservationInfo)
    requires WellKeyed(k)
    ensures info in Report(k, active, scanned) <==>
              && info.id in scanned && info.id in k.data
              && k.data[info.id].info == info && info.id !in active
  {
    if scanned != [] {
      ReportMembers(k, active, scanned[..|scanned| - 1], info);
    }
  }

  /** With no Store while the pass runs (k0 to k1 during the id scan, k1 to k2 during the
      data scan, k3 at the fetch): whatever is reported has no id key any more, and every
      entry that had none when the pass began is reported, however often keys repeat. */
  lemma PassIsExact(k0: Keys, k1: Keys, k2: Keys, k3: Keys, idKeys: seq<ReservationId>, dataKeys: seq<ReservationId>)
    requires Shrinks(k0, k1) && Shrinks(k1, k2) && Shrinks(k2, k3) && WellKeyed(k3)
    requires ScanOf(idKeys, k0.ids.Keys, k1.ids.Keys)
    requires ScanOf(dataKeys, k1.data.Keys, k2.data.Keys)
    ensures forall info :: info in Report(k3, Members(idKeys), dataKeys) ==>
              info.id in k3.data && info == k3.data[info.id].info && info.id !in k3.ids
    ensures forall r :: r in k3.data && r !in k0.ids ==>
              k3.data[r].info in Report(k3, Members(idKeys), dataKeys)
    ensures k0.ids.Keys == k3.ids.Keys ==>
              (set info | info in Report(k3, Members(idKeys), dataKeys))
              == set r | r in k3.data && r !in k3.ids :: k3.data[r].info
  {
    var active := Members(idKeys);
    var report := Report(k3, active, dataKeys);
    forall info | info in report
      ensures info.id in k3.data && info == k3.data[info.id].info && info.id !in k3.ids
    {
      ReportMembers(k3, active, dataKeys, info);
    }
    forall r | r in k3.data && r !in k0.ids
      ensures k3.data[r].info in report
    {
      ReportMembers(k3, active, dataKeys, k3.data[r].info);
    }
  }

  /** What a key set went through during one scan: the keys there all the time, and the keys
      there at some time. Between those two the scan may return anything. */
  datatype Span = Span(always: set<ReservationId>, ever: set<ReservationId>)

  ghost predicate MayScan(keys: seq<ReservationId>, span: Span) {
    && (forall r :: r in span.always ==> r in keys)
    && (forall r :: r in keys ==> r in span.ever)
  }

  /** Between two instants nothing is known but the key sets at both. */
  function Between(before: set<ReservationId>, after: set<ReservationId>): Span {
    Span(before * after, before + after)
  }

  /** Nothing live is reported. */
  ghost predicate OnlyExpired(k3: Keys, report: seq<ReservationInfo>) {
    forall info :: info in report ==> info.id !in k3.ids
  }

  /** Everything that has data and no live id key is reported. */
  ghost predicate AllExpired(k3: Keys, report: seq<ReservationInfo>) {
    forall r :: r in k3.data && r !in k3.ids ==> k3.data[r].info in report
  }

  lemma {:induction false} Listed(s: set<ReservationId>) returns (keys: seq<ReservationId>)
    ensures forall r :: r in keys <==> r in s
    decreases s
  {
    if s == {} {
      keys := [];
    } else {
      var r :| r in s;
      var rest := Listed(s - {r});
      keys := [r] + rest;
    }
  }

  /** Exactly when a pass is right: whatever its scans return, it reports nothing live if and
      only if each reservation that is live with data at the fetch, and whose data key the
      data scan could meet, had its id key throughout the id scan. */
  lemma NothingLiveReported(ids: Span, data: Span, k: Keys)
    requires WellKeyed(k) && ids.always <= ids.ever && data.always <= data.ever
    ensures (forall idKeys, dataKeys :: MayScan(idKeys, ids) && MayScan(dataKeys, data) ==>
               OnlyExpired(k, Report(k, Members(idKeys), dataKeys)))
            <==> (forall r :: r in k.ids && r in k.data && r in data.ever ==> r in ids.always)
  {
    if r :| r in k.ids && r in k.data && r in data.ever && r !in ids.always {
      var idKeys := Listed(ids.always);
      var dataKeys := Listed(data.ever);
      ReportMembers(k, Members(idKeys), dataKeys, k.data[r].info);
      assert MayScan(idKeys, ids) && MayScan(dataKeys, data);
    } else {
      forall idKeys, dataKeys | MayScan(idKeys, ids) && MayScan(dataKeys, data)
        ensures OnlyExpired(k, Report(k, Members(idKeys), dataKeys))
      {
        forall info | info in Report(k, Members(idKeys), dataKeys) ensures info.id !in k.ids {
          ReportMembers(k, Members(idKeys), dataKeys, info);
        }
      }
    }
  }

  /** Exactly when it misses nothing: each reservation with data and no id key at the fetch had
      its data key throughout the data scan and its id key at no time of the id scan. */
  lemma NothingExpiredMissed(ids: Span, data: Span, k: Keys)
    requires WellKeyed(k) && ids.always <= ids.ever && data.always <= data.ever
    ensures (forall idKeys, dataKeys :: MayScan(idKeys, ids) && MayScan(dataKeys, data) ==>
               AllExpired(k, Report(k, Members(idKeys), dataKeys)))
            <==> (forall r :: r in k.data && r !in k.ids ==> r in data.always && r !in ids.ever)
  {
    if r :| r in k.data && r !in k.ids && !(r in data.always && r !in ids.ever) {
      var idKeys := Listed(ids.ever);
      var dataKeys := Listed(data.always);
      ReportMembers(k, Members(idKeys), dataKeys, k.data[r].info);
      assert MayScan(idKeys, ids) && MayScan(dataKeys, data);
      assert !AllExpired(k, Report(k, Members(idKeys), dataKeys));
    } else {
      forall idKeys, dataKeys | MayScan(idKeys, ids) && MayScan(dataKeys, data)
        ensures AllExpired(k, Report(k, Members(idKeys), dataKeys))
      {
        forall r | r in k.data && r !in k.ids ensures k.data[r].info in Report(k, Members(idKeys), dataKeys) {
          ReportMembers(k, Members(idKeys), dataKeys, k.data[r].info);
        }
      }
    }
  }

  /** Each scan that did not fail returned what it may; of one that failed nothing is known. */
  ghost predicate ScansRan(idBatches: seq<seq<ReservationId>>, dataBatches: seq<seq<ReservationId>>,
                           fault: QueryFault, ids: Span, data: Span) {
    && (!fault.IdScanFails? ==> MayScan(Flatten(idBatches), ids))
    && (!fault.DataScanFails? ==> MayScan(Flatten(dataBatches), data))
  }

  lemma {:induction false} FlattenIsEmpty(batches: seq<seq<ReservationId>>)
    ensures Flatten(batches) != [] <==> exists b :: b in batches && b != []
  {
    if batches != [] {
      var n := |batches| - 1;
      FlattenIsEmpty(batches[..n]);
      if Flatten(batches[..n]) != [] {
        var b :| b in batches[..n] && b != [];
        assert b in batches;
      } else if b :| b in batches && b != [] {
        assert b in batches[..n] || b == batches[n];
        assert b == batches[n];
      } else {
        assert batches[n] in batches;
      }
    }
  }

  /** The whole query under any failure: an answer names no reservation whose id key was there
      throughout the id scan, and misses none whose data key was there throughout the data scan
      and until the fetch and whose id key was there at no time. There is no answer exactly
      if a scan failed, or the fetch did and there was something to fetch. */
  lemma AnswersAreTrue(k: Keys, idBatches: seq<seq<ReservationId>>, dataBatches: seq<seq<ReservationId>>,
                       fault: QueryFault, ids: Span, data: Span)
    requires WellKeyed(k) && ScansRan(idBatches, dataBatches, fault, ids, data)
    ensures var answer := QueryAnswer(k, idBatches, dataBatches, fault);
            && (answer.Some? ==> forall info :: info in answer.value ==>
                  info.id !in ids.always && info.id in data.ever && info.id in k.data && info == k.data[info.id].info)
            && (answer.Some? ==> forall r :: r in data.always && r in k.data && r !in ids.ever ==>
                  k.data[r].info in answer.value)
            && (answer.None? <==> fault.IdScanFails? || fault.DataScanFails?
                                  || (fault.FetchFails? && exists b :: b in dataBatches && b != []))
  {
    FlattenIsEmpty(dataBatches);
    var answer := QueryAnswer(k, idBatches, dataBatches, fault);
    var idKeys, dataKeys := Flatten(idBatches), Flatten(dataBatches);
    if answer.Some? {
      forall info | info in answer.value
        ensures info.id !in ids.always && info.id in data.ever && info.id in k.data && info == k.data[info.id].info
      {
        ReportMembers(k, Members(idKeys), dataKeys, info);
      }
      forall r | r in data.always && r in k.data && r !in ids.ever ensures k.data[r].info in answer.value {
        ReportMembers(k, Members(idKeys), dataKeys, k.data[r].info);
      }
    }
  }

  /** The same between any keys at four instants: the id scan runs from k0 to k1, the data scan
      from k1 to k2, and the values are fetched at k3. */
  lemma PassBetweenInstants(k0: Keys, k1: Keys, k2: Keys, k3: Keys)
    requires WellKeyed(k3)
    ensures var ids, data := Between(k0.ids.Keys, k1.ids.Keys), Between(k1.data.Keys, k2.data.Keys);
            (forall idKeys, dataKeys :: MayScan(idKeys, ids) && MayScan(dataKeys, data) ==>
               OnlyExpired(k3, Report(k3, Members(idKeys), dataKeys)))
            <==> (forall r :: r in k3.ids && r in k3.data && (r in k1.data || r in k2.data) ==>
                    r in k0.ids && r in k1.ids)
  {
    NothingLiveReported(Between(k0.ids.Keys, k1.ids.Keys), Between(k1.data.Keys, k2.data.Keys), k3);
  }

  /** A Store between the two scans breaks this: the pass reports a reservation that was
      just made and whose id key is live. */
  lemma StoreBetweenScansMisreports(ttl: Ttl, info: ReservationInfo, now: int)
    requires 0 < ttl.id && 0 < ttl.data
    ensures var k0 := Keys(map[], map[]);
            var k1 := StoreIn(k0, ttl, info, now, StoreOk);
            && ScanOf([], k0.ids.Keys, k0.ids.Keys)
            && ScanOf([info.id], k1.data.Keys, k1.data.Keys)
            && info.id in Tick(k1, now).ids
            && Report(Tick(k1, now), {}, [info.id]) == [info]
  {
    var k1 := Tick(StoreIn(Keys(map[], map[]), ttl, info, now, StoreOk), now);
    assert [info.id][..0] == [];
    assert Report(k1, {}, [info.id]) == Report(k1, {}, [info.id][..0]) + [info];
  }

  // ---------- the expiry window ----------

  /** The keys after a Store at `t` and refreshes at the given times. */
  function Refreshed(k: Keys, ttl: Ttl, r: ReservationId, times: seq<int>): Keys {
    if times == [] then k
    else
      var n := |times| - 1;
      RefreshIn(Tick(Refreshed(k, ttl, r, times[..n]), times[n]), ttl, r, times[n])
  }

  function Last(t: int, times: seq<int>): int {
    if times == [] then t else times[|times| - 1]
  }

  /** Times in order, each refresh finding the id key still live. */
  ghost predicate Timely(t: int, ttl: Ttl, times: seq<int>) {
    times == [] ||
    var n := |times| - 1;
    && Timely(t, ttl, times[..n])
    && Last(t, times[..n]) <= times[n] < Last(t, times[..n]) + ttl.id
  }

  function Made(ttl: Ttl, info: ReservationInfo, t: int, times: seq<int>): Keys {
    Refreshed(StoreIn(Keys(map[], map[]), ttl, info, t, StoreOk), ttl, info.id, times)
  }

  /** A pass at `p` finds the data entry and no id entry. */
  ghost predicate ReportedAt(ttl: Ttl, info: ReservationInfo, t: int, times: seq<int>, p: int) {
    var k := Tick(Made(ttl, info, t, times), p);
    info.id in k.data && info.id !in k.ids
  }

  /** The Store or the last refresh that found the id key live: one that comes too late finds
      nothing to extend, and so do all after it. */
  function LastLive(t: int, ttl: Ttl, times: seq<int>): int {
    if times == [] then t
    else
      var n := |times| - 1;
      var s := LastLive(t, ttl, times[..n]);
      if times[n] < s + ttl.id then times[n] else s
  }

  ghost predicate Ordered(t: int, times: seq<int>) {
    times == [] || (Ordered(t, times[..|times| - 1]) && Last(t, times[..|times| - 1]) <= times[|times| - 1])
  }

  lemma {:induction false} TimelyIsLive(t: int, ttl: Ttl, times: seq<int>)
    requires Timely(t, ttl, times)
    ensures Ordered(t, times) && LastLive(t, ttl, times) == Last(t, times)
  {
    if times != [] {
      TimelyIsLive(t, ttl, times[..|times| - 1]);
    }
  }

  /** Refreshes move the id key's end while it is live, never bring it back, and never touch the
      data key. */
  lemma {:induction false} MadeKeys(ttl: Ttl, info: ReservationInfo, t: int, times: seq<int>)
    requires Ordered(t, times) && 0 < ttl.id
    ensures var k, s, now := Made(ttl, info, t, times), LastLive(t, ttl, times), Last(t, times);
            && (if info.id in k.ids then k.ids[info.id] == s + ttl.id else times != [] && s + ttl.id <= now)
            && (info.id in k.data <==> now < t + ttl.data || times == [])
            && (info.id in k.data ==> k.data[info.id].expires == t + ttl.data)
            && t <= s <= now
  {
    if times != [] {
      MadeKeys(ttl, info, t, times[..|times| - 1]);
    }
  }

  /** The window: for refreshes at any times, with the last one that found the id key live (or
      the Store) at s, a later pass at p reports the reservation exactly when
      s + idTTL <= p < t + dataTTL. */
  lemma Window(ttl: Ttl, info: ReservationInfo, t: int, times: seq<int>, p: int)
    requires Ordered(t, times) && 0 < ttl.id && Last(t, times) <= p
    ensures ReportedAt(ttl, info, t, times, p) <==> LastLive(t, ttl, times) + ttl.id <= p < t + ttl.data
  {
    MadeKeys(ttl, info, t, times);
  }

  /** The k-th pass of a job that started at `phase` and runs every `c`. */
  function PassTime(phase: int, c: nat, k: nat): int {
    phase + k * c
  }

  ghost predicate SomePassReports(ttl: Ttl, info: ReservationInfo, t: int, times: seq<int>, phase: int, c: nat) {
    exists k: nat ::
      Last(t, times) <= PassTime(phase, c, k) && ReportedAt(ttl, info, t, times, PassTime(phase, c, k))
  }

  /** The first pass at or after `x`. */
  lemma {:induction false} FirstPass(phase: int, c: nat, x: int) returns (k: nat)
    requires 0 < c && phase <= x
    ensures x <= PassTime(phase, c, k) < x + c
    decreases x - phase
  {
    if phase == x {
      k := 0;
    } else if x - phase < c {
      k := 1;
      assert PassTime(phase, c, 1) == phase + c;
    } else {
      var j := FirstPass(phase, c, x - c);
      k := j + 1;
      assert PassTime(phase, c, k) == PassTime(phase, c, j) + c;
    }
  }

  lemma {:induction false} PassOrder(phase: int, c: nat, j: nat, k: nat)
    requires j <= k
    ensures PassTime(phase, c, j) <= PassTime(phase, c, k)
    ensures j < k ==> PassTime(phase, c, j) + c <= PassTime(phase, c, k)
    decreases k
  {
    if j < k {
      PassOrder(phase, c, j, k - 1);
      assert PassTime(phase, c, k) == PassTime(phase, c, k - 1) + c;
    }
  }

  /** The expiry guarantee, tight: passes every `c` are sure to report the reservation,
      whatever the phase of the job, exactly if s - t <= dataTTL - idTTL - c. */
  lemma ExpiryGuarantee(ttl: Ttl, info: ReservationInfo, t: int, times: seq<int>, c: nat)
    requires Timely(t, ttl, times) && 0 < ttl.id && 0 < c
    ensures (forall phase :: phase <= Last(t, times) ==> SomePassReports(ttl, info, t, times, phase, c))
            <==> Last(t, times) - t <= ttl.data - ttl.id - c
  {
    var s := Last(t, times);
    TimelyIsLive(t, ttl, times);
    if s - t <= ttl.data - ttl.id - c {
      forall phase | phase <= s
        ensures SomePassReports(ttl, info, t, times, phase, c)
      {
        var k := FirstPass(phase, c, s + ttl.id);
        Window(ttl, info, t, times, PassTime(phase, c, k));
      }
    } else {
      var phase := s + ttl.id - 1 - ttl.id * c;
      assert phase <= s by {
        assert ttl.id <= ttl.id * c;
      }
      assert PassTime(phase, c, ttl.id) == s + ttl.id - 1;
      forall k: nat | s <= PassTime(phase, c, k)
        ensures !ReportedAt(ttl, info, t, times, PassTime(phase, c, k))
      {
        Window(ttl, info, t, times, PassTime(phase, c, k));
        if k <= ttl.id {
          PassOrder(phase, c, k, ttl.id);
        } else {
          PassOrder(phase, c, ttl.id, k);
        }
      }
      assert !SomePassReports(ttl, info, t, times, phase, c);
    }
  }

  /** Once refreshes have used up the gap between the two lifetimes, no pass ever reports it. */
  lemma NeverReported(ttl: Ttl, info: ReservationInfo, t: int, times: seq<int>)
    requires Timely(t, ttl, times) && 0 < ttl.id
    ensures (forall p :: Last(t, times) <= p ==> !ReportedAt(ttl, info, t, times, p))
            <==> Last(t, times) - t >= ttl.data - ttl.id
  {
    var s := Last(t, times);
    TimelyIsLive(t, ttl, times);
    if s - t >= ttl.data - ttl.id {
      forall p | s <= p ensures !ReportedAt(ttl, info, t, times, p) {
        Window(ttl, info, t, times, p);
      }
    } else {
      Window(ttl, info, t, times, s + ttl.id);
    }
  }

  const DEFAULT_TTL := Ttl(600, 1800)
  const DEFAULT_CLEANUP_INTERVAL := 60

  /** With the default settings the guarantee covers refreshes up to 1140 s after the Store. */
  lemma DefaultWindow(info: ReservationInfo, t: int, times: seq<int>)
    requires Timely(t, DEFAULT_TTL, times)
    ensures (forall phase :: phase <= Last(t, times) ==>
              SomePassReports(DEFAULT_TTL, info, t, times, phase, DEFAULT_CLEANUP_INTERVAL))
            <==> Last(t, times) - t <= 1140
  {
    ExpiryGuarantee(DEFAULT_TTL, info, t, times, DEFAULT_CLEANUP_INTERVAL);
  }
}
