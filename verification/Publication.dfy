/**
Publication of raw bundles over two stores: a record in the database and a directory in the file system.
A step may raise, and the process may stop before any step; `Reconcile` then repairs what was left.
*/
module Publication {
  import opened Basics

  type Bytes = seq<bv8>

  datatype Intent = Intent(publication: Id, task: Id, request: Id, attempt: Id, source: Id, operation: Id,
                           digest: Id, size: nat, media: Id, encoding: Id, schema: Id, version: nat, generation: nat)

  datatype Candidate = Candidate(attempt: Id, body: Bytes, digest: Id, media: Id, encoding: Id)

  datatype File = BodyFile | RequestFile | ResponseFile | ReceiptFile

  // What a file holds: raw bytes, a metadata object, or the remains of an interrupted write.
  datatype Content =
    | Raw(bytes: Bytes)
    | RequestMeta(request: Id, operation: Id, attempt: Id, generation: nat, publication: Id, source: Id, task: Id)
    | ResponseMeta(size: nat, encoding: Id, media: Id, schema: Id, version: nat)
    | Receipt(digest: Id, size: nat)
    | Torn

  type Bundle = map<File, Content>

  // <task>/.staging/acquisitions/<attempt> and <task>/acquisitions/<request>/<attempt>
  datatype Desk = Desk(task: Id, attempt: Id)
  datatype Shelf = Shelf(task: Id, path: Path)
  datatype Path = Path(request: Id, attempt: Id)

  // A relative path is stored exactly with the committed state.
  datatype State = Staged | Required | Committed(path: Path) | Failed

  datatype Record = Record(intent: Intent, state: State)

  datatype World = World(records: map<Id, Record>, desks: map<Desk, Bundle>, shelves: map<Shelf, Bundle>)

  datatype Fate = Goes | Raises | Stops

  datatype Step = MakeDesk | WriteFile(file: File) | Validate | MakeShelf | Rename | Sync | MarkFailed | RemoveFile(file: File)
                | RemoveDesk | MarkRequired | MarkCommitted

  datatype Outcome = Published(path: Path) | Refused | Halted

  function DeskOf(intent: Intent): Desk {
    Desk(intent.task, intent.attempt)
  }

  function PathOf(intent: Intent): Path {
    Path(intent.request, intent.attempt)
  }

  function ShelfOf(intent: Intent): Shelf {
    Shelf(intent.task, PathOf(intent))
  }

  function ContentFor(candidate: Candidate, intent: Intent, file: File): Content {
    match file
    case BodyFile => Raw(candidate.body)
    case RequestFile => RequestMeta(intent.request, intent.operation, intent.attempt, intent.generation, intent.publication,
                                    intent.source, intent.task)
    case ResponseFile => ResponseMeta(intent.size, intent.encoding, intent.media, intent.schema, intent.version)
    case ReceiptFile => Receipt(intent.digest, intent.size)
  }

  /** The bundle holds exactly the bytes and metadata of the intent, as the staged files are verified. */
  predicate Exact(sha: Bytes -> Id, bundle: Bundle, intent: Intent) {
    && BodyFile in bundle && bundle[BodyFile].Raw?
    && |bundle[BodyFile].bytes| == intent.size && sha(bundle[BodyFile].bytes) == intent.digest
    && RequestFile in bundle
    && bundle[RequestFile] == RequestMeta(intent.request, intent.operation, intent.attempt, intent.generation, intent.publication,
                                          intent.source, intent.task)
    && ResponseFile in bundle
    && bundle[ResponseFile] == ResponseMeta(intent.size, intent.encoding, intent.media, intent.schema, intent.version)
    && ReceiptFile in bundle && bundle[ReceiptFile] == Receipt(intent.digest, intent.size)
  }

  predicate Matches(candidate: Candidate, intent: Intent) {
    && candidate.attempt == intent.attempt && candidate.digest == intent.digest && |candidate.body| == intent.size
    && candidate.media == intent.media && candidate.encoding == intent.encoding
  }

  predicate Pending(state: State) {
    state == Staged || state == Required
  }

  predicate Holds(bundle: Bundle, candidate: Candidate, intent: Intent, file: File) {
    file in bundle && bundle[file] == ContentFor(candidate, intent, file)
  }

  predicate Written(bundle: Bundle, candidate: Candidate, intent: Intent) {
    && Holds(bundle, candidate, intent, BodyFile) && Holds(bundle, candidate, intent, RequestFile)
    && Holds(bundle, candidate, intent, ResponseFile) && Holds(bundle, candidate, intent, ReceiptFile)
  }

  // The candidate is what the intent announces, down to the number of bytes.
  predicate Fits(candidate: Candidate, intent: Intent) {
    candidate == Candidate(intent.attempt, candidate.body, intent.digest, intent.media, intent.encoding) && |candidate.body| == intent.size
  }

  lemma FitsIff(candidate: Candidate, intent: Intent)
    ensures Matches(candidate, intent) <==> Fits(candidate, intent)
  {
  }

  // ---------------------------------------------------------------- the invariant

  ghost predicate RecordOk(sha: Bytes -> Id, w: World, p: Id, renamed: set<Id>)
    requires p in w.records
  {
    var intent, state := w.records[p].intent, w.records[p].state;
    && intent.publication == p
    && (p in renamed <==> ShelfOf(intent) in w.shelves)
    && (ShelfOf(intent) in w.shelves ==> Exact(sha, w.shelves[ShelfOf(intent)], intent) && DeskOf(intent) !in w.desks)
    && (state.Committed? ==> state.path == PathOf(intent) && ShelfOf(intent) in w.shelves)
    && (state == Required ==> ShelfOf(intent) in w.shelves)
    && (state == Failed ==> ShelfOf(intent) !in w.shelves)
  }

  ghost predicate Known(records: map<Id, Record>, attempt: Id) {
    exists p :: p in records && records[p].intent.attempt == attempt
  }

  /** Every attempt has at most one record, every directory belongs to one, and each record agrees with its directories. */
  ghost predicate WorldOk(sha: Bytes -> Id, w: World, renamed: set<Id>) {
    && (forall p, q | p in w.records && q in w.records :: w.records[p].intent.attempt == w.records[q].intent.attempt ==> p == q)
    && renamed <= w.records.Keys
    && (forall d :: d in w.desks ==> Known(w.records, d.attempt))
    && (forall s :: s in w.shelves ==> Known(w.records, s.path.attempt))
    && (forall p :: p in w.records ==> RecordOk(sha, w, p, renamed))
  }

  // ---------------------------------------------------------------- what reconciliation does

  /** The record after reconciliation: committed if its directory was renamed, failed otherwise. */
  function Settled(w: World, p: Id): Record
    requires p in w.records
  {
    var intent := w.records[p].intent;
    if !Pending(w.records[p].state) then w.records[p]
    else if ShelfOf(intent) in w.shelves then Record(intent, Committed(PathOf(intent)))
    else Record(intent, Failed)
  }

  // The desks of the pending records among `some` that were not renamed.
  function Cleared(w: World, some: set<Id>): set<Desk> {
    set p | p in some && p in w.records && Pending(w.records[p].state) && ShelfOf(w.records[p].intent) !in w.shelves ::
      DeskOf(w.records[p].intent)
  }

  function Reconciled(w: World, some: set<Id>): World {
    World(map p | p in w.records :: if p in some then Settled(w, p) else w.records[p], w.desks - Cleared(w, some), w.shelves)
  }

  // Both directories of one publication exist.
  ghost predicate Conflict(w: World, p: Id)
    requires p in w.records
  {
    Pending(w.records[p].state) && DeskOf(w.records[p].intent) in w.desks && ShelfOf(w.records[p].intent) in w.shelves
  }

  // How every record ends: committed exactly when it was renamed, and then its directory holds exactly the intent.
  ghost predicate AllSettled(sha: Bytes -> Id, w: World, renamed: set<Id>) {
    forall p :: p in w.records ==>
      && (w.records[p].state == Failed || w.records[p].state == Committed(PathOf(w.records[p].intent)))
      && (w.records[p].state.Committed? <==> p in renamed)
      && (w.records[p].state.Committed? ==>
            ShelfOf(w.records[p].intent) in w.shelves && Exact(sha, w.shelves[ShelfOf(w.records[p].intent)], w.records[p].intent))
  }

  ghost predicate SameIntents(w: World, after: World) {
    after.records.Keys == w.records.Keys && forall p :: p in w.records ==> after.records[p].intent == w.records[p].intent
  }

  /** After a crash anywhere, reconciliation never meets a conflict; every record ends committed or failed, committed
      exactly when its directory was renamed, then with exactly the intended bytes; doing it again changes nothing. */
  lemma ReconciliationRepairs(sha: Bytes -> Id, w: World, renamed: set<Id>)
    requires WorldOk(sha, w, renamed)
    ensures forall p :: p in w.records ==> !Conflict(w, p)
    ensures var after := Reconciled(w, w.records.Keys);
            && WorldOk(sha, after, renamed) && SameIntents(w, after) && AllSettled(sha, after, renamed)
            && Reconciled(after, after.records.Keys) == after
  {
    hide WorldOk, Reconciled, AllSettled, Settled;
    forall p | p in w.records
      ensures !Conflict(w, p)
    {
      RecordFacts(sha, w, renamed, p);
    }
    ReconciledOk(sha, w, renamed);
    ReconciledSettles(sha, w, renamed);
    SettledStays(sha, Reconciled(w, w.records.Keys), renamed);
  }

  lemma RecordFacts(sha: Bytes -> Id, w: World, renamed: set<Id>, p: Id)
    requires WorldOk(sha, w, renamed) && p in w.records
    ensures RecordOk(sha, w, p, renamed)
  {
  }

  lemma ReconciledOk(sha: Bytes -> Id, w: World, renamed: set<Id>)
    requires WorldOk(sha, w, renamed)
    ensures WorldOk(sha, Reconciled(w, w.records.Keys), renamed)
  {
    hide Exact, Known;
    var after := Reconciled(w, w.records.Keys);
    KeptKnown(w, w.records.Keys);
    forall p | p in after.records
      ensures RecordOk(sha, after, p, renamed)
    {
      assert RecordOk(sha, w, p, renamed);
    }
  }

  lemma ReconciledSettles(sha: Bytes -> Id, w: World, renamed: set<Id>)
    requires WorldOk(sha, w, renamed)
    ensures SameIntents(w, Reconciled(w, w.records.Keys)) && AllSettled(sha, Reconciled(w, w.records.Keys), renamed)
  {
    hide WorldOk, Exact;
    forall p | p in w.records {
      RecordFacts(sha, w, renamed, p);
    }
  }

  lemma SettledStays(sha: Bytes -> Id, w: World, renamed: set<Id>)
    requires AllSettled(sha, w, renamed)
    ensures Reconciled(w, w.records.Keys) == w
  {
    hide Exact;
    assert Cleared(w, w.records.Keys) == {};
  }

  lemma KeptKnown(w: World, some: set<Id>)
    ensures forall a :: Known(w.records, a) ==> Known(Reconciled(w, some).records, a)
  {
    forall a | Known(w.records, a)
      ensures Known(Reconciled(w, some).records, a)
    {
      var p :| p in w.records && w.records[p].intent.attempt == a;
      assert p in Reconciled(w, some).records && Reconciled(w, some).records[p].intent.attempt == a;
    }
  }

  // Two tables of directories, or of records, that differ at most in one place.
  ghost predicate OnlyDesk(before: map<Desk, Bundle>, after: map<Desk, Bundle>, desk: Desk) {
    && (forall d :: d != desk ==> (d in after <==> d in before))
    && (forall d :: d != desk && d in after ==> after[d] == before[d])
  }

  ghost predicate OnlyRecord(before: map<Id, Record>, after: map<Id, Record>, p: Id) {
    forall q :: q != p ==> (q in after <==> q in before) && (q in after ==> after[q] == before[q])
  }

  ghost predicate OnlyRecordRenamed(before: set<Id>, after: set<Id>, p: Id) {
    forall q :: q != p ==> (q in after <==> q in before)
  }

  predicate Used(records: map<Id, Record>, attempt: Id)
    ensures Used(records, attempt) <==> Known(records, attempt)
  {
    exists p :: p in records && records[p].intent.attempt == attempt
  }

  lemma SameDesks(desks: map<Desk, Bundle>, desk: Desk)
    ensures OnlyDesk(desks, desks, desk)
  {
  }

  lemma DeskAdded(desks: map<Desk, Bundle>, desk: Desk, bundle: Bundle)
    ensures OnlyDesk(desks, desks[desk := bundle], desk)
  {
  }

  lemma DeskMoved(before: map<Desk, Bundle>, after: map<Desk, Bundle>, desk: Desk)
    requires OnlyDesk(before, after, desk)
    ensures OnlyDesk(before, after - {desk}, desk)
  {
  }

  /** A bundle written as intended is exact if and only if its bytes have the digest the candidate claims. */
  lemma WrittenExactly(sha: Bytes -> Id, bundle: Bundle, candidate: Candidate, intent: Intent)
    requires Matches(candidate, intent)
    requires Written(bundle, candidate, intent)
    ensures Exact(sha, bundle, intent) <==> sha(candidate.body) == intent.digest
  {
  }

  // ---------------------------------------------------------------- the publisher

  class RawArtifactPublisher {
    const sha: Bytes -> Id
    var records: map<Id, Record>
    var desks: map<Desk, Bundle>
    var shelves: map<Shelf, Bundle>
    ghost var renamed: set<Id>

    ghost function Present(): World
      reads this
    {
      World(records, desks, shelves)
    }

    ghost predicate Valid()
      reads this
    {
      WorldOk(sha, Present(), renamed)
    }

    constructor (digest: Bytes -> Id)
      ensures Valid() && Present() == World(map[], map[], map[]) && renamed == {} && sha == digest
    {
      sha := digest;
      records, desks, shelves, renamed := map[], map[], map[], {};
    }

    // A transition of one record; the database may refuse it (a lost fence) or the process may stop first.
    method Transition(p: Id, state: State, fate: Fate)
      requires p in records
      modifies `records
      ensures records == if fate == Goes then old(records)[p := Record(old(records)[p].intent, state)] else old(records)
    {
      if fate == Goes {
        records := records[p := Record(records[p].intent, state)];
      }
    }

    /** Empty a staging directory file by file and remove it. */
    method RemoveBundle(desk: Desk, fates: Step -> Fate) returns (fate: Fate)
      requires desk in desks
      modifies `desks
      ensures OnlyDesk(old(desks), desks, desk)
      ensures fate == Goes <==> desk !in desks
      ensures (forall s :: fates(s) == Goes) ==> fate == Goes
    {
      while desks[desk] != map[]
        invariant desk in desks && OnlyDesk(old(desks), desks, desk)
        decreases |desks[desk].Keys|
      {
        assert desks[desk].Keys != {};
        var file :| file in desks[desk].Keys;
        if fates(RemoveFile(file)) != Goes {
          return fates(RemoveFile(file));
        }
        ghost var before := desks[desk].Keys;
        desks := desks[desk := desks[desk] - {file}];
        assert desks[desk].Keys == before - {file};
      }
      if fates(RemoveDesk) != Goes {
        return fates(RemoveDesk);
      }
      desks := desks - {desk};
      return Goes;
    }

    /** Write the four files one after the other; an interrupted write leaves a torn file behind. */
    method WriteFiles(candidate: Candidate, intent: Intent, fates: Step -> Fate) returns (fate: Fate)
      requires DeskOf(intent) in desks
      modifies `desks
      ensures DeskOf(intent) in desks && OnlyDesk(old(desks), desks, DeskOf(intent))
      ensures fate == Goes ==> Written(desks[DeskOf(intent)], candidate, intent)
      ensures (forall s :: fates(s) == Goes) ==> fate == Goes
    {
      var desk, order := DeskOf(intent), [BodyFile, RequestFile, ResponseFile, ReceiptFile];
      for i := 0 to 4
        invariant desk in desks && OnlyDesk(old(desks), desks, desk)
        invariant forall k :: 0 <= k < i ==> Holds(desks[desk], candidate, intent, order[k])
      {
        fate := fates(WriteFile(order[i]));
        desks := desks[desk := desks[desk][order[i] := if fate == Goes then ContentFor(candidate, intent, order[i]) else Torn]];
        if fate != Goes {
          return;
        }
      }
      assert order[0] == BodyFile && order[1] == RequestFile && order[2] == ResponseFile && order[3] == ReceiptFile;
      fate := Goes;
    }

    /** Stage the four files, validate and verify them, and rename the directory into place. */
    method Stage(candidate: Candidate, intent: Intent, fates: Step -> Fate) returns (fate: Fate, moved: bool)
      requires Valid() && intent.publication in records && records[intent.publication] == Record(intent, Staged)
      requires DeskOf(intent) in desks && ShelfOf(intent) !in shelves && Matches(candidate, intent)
      modifies `desks, `shelves, `renamed
      ensures Valid() && OnlyDesk(old(desks), desks, DeskOf(intent))
      ensures renamed == if moved then old(renamed) + {intent.publication} else old(renamed)
      ensures if moved then ShelfOf(intent) in shelves && shelves == old(shelves)[ShelfOf(intent) := shelves[ShelfOf(intent)]]
              else shelves == old(shelves)
      ensures fate == Goes ==> moved
      ensures moved ==> Written(shelves[ShelfOf(intent)], candidate, intent)
      ensures (forall s :: fates(s) == Goes) ==> (fate == Goes <==> sha(candidate.body) == intent.digest) && fate != Stops
    {
      hide WorldOk, OnlyDesk;
      var desk := DeskOf(intent);
      fate := WriteFiles(candidate, intent, fates);
      ghost var staged := Present();
      DeskChanged(sha, old(Present()), staged, renamed, intent);
      moved := false;
      if fate != Goes {
        return;
      }
      WrittenExactly(sha, desks[desk], candidate, intent);
      if fates(Validate) != Goes {
        return fates(Validate), false;
      }
      if !Exact(sha, desks[desk], intent) {
        return Raises, false;
      }
      if fates(MakeShelf) != Goes {
        return fates(MakeShelf), false;
      }
      if fates(Rename) != Goes {
        return fates(Rename), false;
      }
      DeskMoved(old(desks), desks, desk);
      shelves, desks := shelves[ShelfOf(intent) := desks[desk]], desks - {desk};
      moved, renamed := true, renamed + {intent.publication};
      Renamed(sha, staged, Present(), old(renamed), intent);
      return fates(Sync), true;
    }

    // The end of a publication that was renamed: committed, or left for reconciliation.
    method Commit(intent: Intent, synced: bool, fates: Step -> Fate) returns (outcome: Outcome)
      requires Valid() && intent.publication in records && records[intent.publication] == Record(intent, Staged)
      requires ShelfOf(intent) in shelves
      modifies `records
      ensures Valid()
      ensures intent.publication in records && records == old(records)[intent.publication := Record(intent, records[intent.publication].state)]
      ensures outcome.Published? <==> records[intent.publication].state == Committed(PathOf(intent))
      ensures outcome.Published? ==> outcome.path == PathOf(intent)
      ensures outcome.Published? <==> synced && fates(MarkCommitted) == Goes
    {
      hide WorldOk;
      ghost var staged := Present();
      if synced {
        Transition(intent.publication, Committed(PathOf(intent)), fates(MarkCommitted));
        if fates(MarkCommitted) == Goes {
          Moved(sha, staged, Present(), renamed, intent);
          return Published(PathOf(intent));
        }
        if fates(MarkCommitted) == Stops {
          assert records == old(records)[intent.publication := Record(intent, Staged)];
          return Halted;
        }
      }
      Transition(intent.publication, Required, fates(MarkRequired));
      Moved(sha, staged, Present(), renamed, intent);
      return if fates(MarkRequired) == Stops then Halted else Refused;
    }

    // The end of a publication that was not renamed: failed, and its staging directory removed.
    method Fail(intent: Intent, fates: Step -> Fate) returns (outcome: Outcome)
      requires Valid() && intent.publication in records && records[intent.publication] == Record(intent, Staged)
      requires ShelfOf(intent) !in shelves
      modifies `records, `desks
      ensures Valid() && OnlyDesk(old(desks), desks, DeskOf(intent))
      ensures intent.publication in records && records == old(records)[intent.publication := Record(intent, records[intent.publication].state)]
      ensures !outcome.Published? && !records[intent.publication].state.Committed?
    {
      hide WorldOk, OnlyDesk;
      ghost var staged := Present();
      SameDesks(desks, DeskOf(intent));
      Transition(intent.publication, Failed, fates(MarkFailed));
      Unmoved(sha, staged, Present(), renamed, intent);
      if fates(MarkFailed) == Stops {
        return Halted;
      }
      if DeskOf(intent) in desks {
        ghost var failed := Present();
        var removed := RemoveBundle(DeskOf(intent), fates);
        DeskChanged(sha, failed, Present(), renamed, intent);
        return if removed == Stops then Halted else Refused;
      }
      return Refused;
    }

    /** Publish one candidate. Whatever raises and wherever the process stops, the two stores keep agreeing. */
    method Publish(candidate: Candidate, intent: Intent, eligible: bool, begins: Fate, fates: Step -> Fate)
      returns (outcome: Outcome)
      requires Valid()
      modifies this
      ensures Valid()
      ensures OnlyRecord(old(records), records, intent.publication) && OnlyRecordRenamed(old(renamed), renamed, intent.publication)
      ensures old(intent.publication in records) ==> Present() == old(Present())
      ensures outcome.Published? ==>
                && outcome.path == PathOf(intent) && intent.publication in records
                && records[intent.publication] == Record(intent, Committed(outcome.path))
                && ShelfOf(intent) in shelves && Exact(sha, shelves[ShelfOf(intent)], intent)
      ensures outcome.Published? && old(intent.publication !in records) ==>
                BodyFile in shelves[ShelfOf(intent)] && shelves[ShelfOf(intent)][BodyFile] == Raw(candidate.body)
      ensures old(intent.publication in records) ==>
                (outcome.Published? <==> Fits(candidate, intent) && old(records[intent.publication].intent == intent
                                                                        && records[intent.publication].state.Committed?))
      ensures (forall s :: fates(s) == Goes) && begins == Goes && old(intent.publication !in records) ==>
                (outcome.Published? <==> Fits(candidate, intent) && eligible && !old(Known(records, intent.attempt))
                                         && sha(candidate.body) == intent.digest)
    {
      FitsIff(candidate, intent);
      hide WorldOk, Known, Exact, Matches, Fits;
      var p := intent.publication;
      if !Matches(candidate, intent) {
        return Refused;
      }
      if p in records {
        RecordFacts(sha, Present(), renamed, p);
        if records[p].intent != intent || !records[p].state.Committed? {
          return Refused;
        }
        if !Exact(sha, shelves[ShelfOf(intent)], intent) {
          assert false;
        }
        return Published(PathOf(intent));
      }
      if begins != Goes || !eligible || Used(records, intent.attempt) {
        return if begins == Stops then Halted else Refused;
      }
      ghost var before := Present();
      records := records[p := Record(intent, Staged)];
      Began(sha, before, Present(), renamed, intent);
      if DeskOf(intent) in desks || ShelfOf(intent) in shelves {
        NoDirectory(sha, before, renamed, intent);
        assert false;
      }
      if fates(MakeDesk) != Goes {
        return if fates(MakeDesk) == Stops then Halted else Refused;
      }
      ghost var began := Present();
      desks := desks[DeskOf(intent) := map[]];
      DeskAdded(began.desks, DeskOf(intent), map[]);
      DeskChanged(sha, began, Present(), renamed, intent);
      var fate, moved := Stage(candidate, intent, fates);
      if fate == Stops {
        return Halted;
      }
      if moved {
        outcome := Commit(intent, fate == Goes, fates);
        RecordFacts(sha, Present(), renamed, p);
      } else {
        outcome := Fail(intent, fates);
      }
    }

    /** Repair one pending record: commit it if its directory was renamed, otherwise clear its desk and fail it. */
    method RepairOne(p: Id, fates: Step -> Fate) returns (fate: Fate)
      requires Valid() && p in records && Pending(records[p].state)
      modifies `records, `desks
      ensures Valid()
      ensures (forall s :: fates(s) == Goes) ==> fate == Goes
      ensures fate == Goes ==> Present() == Reconciled(old(Present()), {p})
      ensures records.Keys == old(records).Keys
    {
      hide WorldOk, Exact, OnlyDesk, Known, Reconciled;
      var intent := records[p].intent;
      ghost var w := Present();
      RecordFacts(sha, w, renamed, p);
      if ShelfOf(intent) in shelves && DeskOf(intent) !in desks {
        if !Exact(sha, shelves[ShelfOf(intent)], intent) {
          assert false;
        }
        Transition(p, Committed(PathOf(intent)), fates(MarkCommitted));
        Moved(sha, w, Present(), renamed, intent);
        if fates(MarkCommitted) == Goes {
          OneReconciled(w, p, Present());
        }
        return fates(MarkCommitted);
      }
      if ShelfOf(intent) in shelves {
        assert false;
      }
      SameDesks(desks, DeskOf(intent));
      if DeskOf(intent) in desks {
        fate := RemoveBundle(DeskOf(intent), fates);
        DeskChanged(sha, w, Present(), renamed, intent);
        if fate != Goes {
          return;
        }
      }
      ghost var cleared := Present();
      Transition(p, Failed, fates(MarkFailed));
      Unmoved(sha, cleared, Present(), renamed, intent);
      if fates(MarkFailed) == Goes {
        OneReconciled(w, p, Present());
      }
      return fates(MarkFailed);
    }

    // Check every committed record against its directory.
    method CheckCommitted()
      requires Valid()
    {
      hide WorldOk, Exact;
      var committed := set p | p in records && records[p].state.Committed?;
      while committed != {}
        invariant forall p :: p in committed ==> p in records && records[p].state.Committed?
        decreases |committed|
      {
        LeastExists(committed);
        var p: Id :| p in committed && forall q :: q in committed ==> p <= q;
        RecordFacts(sha, Present(), renamed, p);
        if !Exact(sha, shelves[ShelfOf(records[p].intent)], records[p].intent) {
          assert false;
        }
        committed := committed - {p};
      }
    }

    // One more record, after those already done.
    method RepairNext(fates: (Id, Step) -> Fate, ghost w: World, ghost done: set<Id>, repaired: seq<Id>, p: Id)
      returns (fate: Fate, listed: seq<Id>)
      requires Valid() && Present() == Reconciled(w, done) && p in PendingOf(w.records) && p !in done
      requires Listed(repaired, done, renamed) && forall q :: q in done ==> q < p
      modifies `records, `desks
      ensures Valid() && records.Keys == old(records).Keys
      ensures (forall s :: fates(p, s) == Goes) ==> fate == Goes
      ensures fate == Goes ==> Present() == Reconciled(w, done + {p}) && Listed(listed, done + {p}, renamed)
    {
      hide WorldOk, Exact, Known, Reconciled, Listed, RecordOk, PendingOf, Pending;
      Untouched(w, done, p);
      listed := repaired;
      fate := RepairOne(p, s => fates(p, s));
      if fate != Goes {
        return;
      }
      ReconciledTwice(w, done, p);
      RenamedIff(sha, Present(), renamed, p);
      OneListed(repaired, done, renamed, p);
      if ShelfOf(records[p].intent) in shelves {
        listed := repaired + [p];
      }
    }

    /** Repair every pending record in the order of their identifiers, then check every committed one. `Stops` if the
        process stops, `Raises` if a step raises. The repaired publications are exactly the pending ones that were renamed. */
    method Reconcile(fates: (Id, Step) -> Fate) returns (outcome: Fate, repaired: seq<Id>)
      requires Valid()
      modifies this
      ensures Valid() && renamed == old(renamed) && records.Keys == old(records).Keys
      ensures (forall p, s :: fates(p, s) == Goes) ==> outcome == Goes
      ensures outcome == Goes ==> Present() == old(Reconciled(Present(), records.Keys))
      ensures outcome == Goes ==> Listed(repaired, old(PendingOf(records)), renamed)
    {
      hide WorldOk, Exact, Known, Reconciled, Listed, RecordOk, PendingOf, Pending, Precede;
      repaired := [];
      ghost var w := Present();
      var todo := PendingOf(records);
      ghost var done: set<Id> := {};
      NothingReconciled(w);
      NothingListed(renamed);
      NothingPrecedes(todo);
      while todo != {}
        invariant Valid() && renamed == old(renamed) && records.Keys == old(records).Keys
        invariant Present() == Reconciled(w, done) && todo !! done && todo + done == PendingOf(w.records)
        invariant Listed(repaired, done, renamed)
        invariant Precede(done, todo)
        decreases |todo|
      {
        LeastExists(todo);
        var p: Id :| p in todo && forall q :: q in todo ==> p <= q;
        NextPrecedes(done, todo, p);
        var fate, listed := RepairNext(fates, w, done, repaired, p);
        if fate != Goes {
          return fate, repaired;
        }
        repaired := listed;
        todo, done := todo - {p}, done + {p};
      }
      AllReconciled(w, done);
      assert done == PendingOf(w.records);
      CheckCommitted();
      return Goes, repaired;
    }
  }

  function PendingOf(records: map<Id, Record>): set<Id> {
    set p | p in records && Pending(records[p].state)
  }

  // `repaired` lists the renamed ones among `done`, in ascending order.
  ghost predicate Listed(repaired: seq<Id>, done: set<Id>, renamed: set<Id>) {
    && (forall p :: p in repaired <==> p in done && p in renamed)
    && (forall i, j :: 0 <= i < j < |repaired| ==> repaired[i] < repaired[j])
  }

  ghost predicate Precede(done: set<Id>, todo: set<Id>) {
    forall p, q :: p in done && q in todo ==> p < q
  }

  lemma NothingPrecedes(todo: set<Id>)
    ensures Precede({}, todo)
  {
  }

  lemma NextPrecedes(done: set<Id>, todo: set<Id>, p: Id)
    requires Precede(done, todo) && p in todo && forall q :: q in todo ==> p <= q
    ensures Precede(done + {p}, todo - {p}) && forall q :: q in done ==> q < p
  {
  }

  lemma NothingListed(renamed: set<Id>)
    ensures Listed([], {}, renamed)
  {
  }

  lemma OneListed(repaired: seq<Id>, done: set<Id>, renamed: set<Id>, p: Id)
    requires Listed(repaired, done, renamed) && forall q :: q in done ==> q < p
    ensures p in renamed ==> Listed(repaired + [p], done + {p}, renamed)
    ensures p !in renamed ==> Listed(repaired, done + {p}, renamed)
  {
    forall i | 0 <= i < |repaired|
      ensures repaired[i] < p
    {
      assert repaired[i] in repaired;
    }
  }

  // A record not yet repaired is as it was.
  lemma Untouched(w: World, done: set<Id>, p: Id)
    requires p in PendingOf(w.records) && p !in done
    ensures p in w.records && p in Reconciled(w, done).records && Reconciled(w, done).records[p] == w.records[p]
    ensures Pending(w.records[p].state)
  {
  }

  lemma RenamedIff(sha: Bytes -> Id, w: World, renamed: set<Id>, p: Id)
    requires WorldOk(sha, w, renamed) && p in w.records
    ensures p in renamed <==> ShelfOf(w.records[p].intent) in w.shelves
  {
    RecordFacts(sha, w, renamed, p);
  }

  lemma ReconciledTwice(w: World, done: set<Id>, p: Id)
    requires p in w.records && p !in done
    ensures Reconciled(Reconciled(w, done), {p}) == Reconciled(w, done + {p})
  {
    assert Cleared(w, done + {p}) == Cleared(w, done) + Cleared(Reconciled(w, done), {p});
  }

  lemma OneReconciled(w: World, p: Id, after: World)
    requires p in w.records && Pending(w.records[p].state)
    requires after.records == w.records[p := Settled(w, p)] && after.shelves == w.shelves
    requires OnlyDesk(w.desks, after.desks, DeskOf(w.records[p].intent))
    requires DeskOf(w.records[p].intent) !in after.desks
    requires ShelfOf(w.records[p].intent) in w.shelves ==> DeskOf(w.records[p].intent) !in w.desks
    ensures after == Reconciled(w, {p})
  {
    assert Cleared(w, {p}) == if ShelfOf(w.records[p].intent) !in w.shelves then {DeskOf(w.records[p].intent)} else {};
  }

  lemma {:induction false} LeastExists(s: set<Id>)
    requires s != {}
    ensures exists p :: p in s && forall q :: q in s ==> p <= q
  {
    var z :| z in s;
    if s != {z} {
      LeastExists(s - {z});
      var x :| x in s - {z} && forall q :: q in s - {z} ==> x <= q;
      LeastOfMore(s, x, z);
    }
  }

  lemma LeastOfMore(s: set<Id>, x: Id, z: Id)
    requires x in s && z in s && forall q :: q in s - {z} ==> x <= q
    ensures exists p :: p in s && forall q :: q in s ==> p <= q
  {
    var least := if x <= z then x else z;
    forall q | q in s
      ensures least <= q
    {
      assert q != z ==> q in s - {z};
    }
  }

  lemma NothingReconciled(w: World)
    ensures Reconciled(w, {}) == w
  {
    assert Cleared(w, {}) == {};
  }

  lemma AllReconciled(w: World, done: set<Id>)
    requires done == PendingOf(w.records)
    ensures Reconciled(w, done) == Reconciled(w, w.records.Keys)
  {
    assert Cleared(w, done) == Cleared(w, w.records.Keys);
  }

  // ---------------------------------------------------------------- single changes

  // Only the desk of a record that is not renamed changes.
  lemma DeskChanged(sha: Bytes -> Id, before: World, after: World, renamed: set<Id>, intent: Intent)
    requires WorldOk(sha, before, renamed) && after.records == before.records && after.shelves == before.shelves
    requires intent.publication in before.records && before.records[intent.publication].intent == intent
    requires ShelfOf(intent) !in before.shelves && OnlyDesk(before.desks, after.desks, DeskOf(intent))
    ensures WorldOk(sha, after, renamed)
  {
    hide Exact;
    assert Known(after.records, intent.attempt);
    forall p | p in after.records
      ensures RecordOk(sha, after, p, renamed)
    {
      assert RecordOk(sha, before, p, renamed);
    }
  }

  lemma Began(sha: Bytes -> Id, before: World, after: World, renamed: set<Id>, intent: Intent)
    requires WorldOk(sha, before, renamed) && intent.publication !in before.records && !Known(before.records, intent.attempt)
    requires after == before.(records := before.records[intent.publication := Record(intent, Staged)])
    ensures WorldOk(sha, after, renamed)
  {
    hide Exact;
    forall a | Known(before.records, a)
      ensures Known(after.records, a)
    {
      var p :| p in before.records && before.records[p].intent.attempt == a;
      assert p in after.records && after.records[p].intent.attempt == a;
    }
    forall p | p in before.records
      ensures before.records[p].intent.attempt != intent.attempt
    {
      assert before.records[p].intent.attempt == intent.attempt ==> Known(before.records, intent.attempt);
    }
    forall p | p in before.records
      ensures RecordOk(sha, after, p, renamed)
    {
      assert RecordOk(sha, before, p, renamed);
    }
  }

  // A new attempt has no directory yet.
  lemma NoDirectory(sha: Bytes -> Id, w: World, renamed: set<Id>, intent: Intent)
    requires WorldOk(sha, w, renamed) && !Known(w.records, intent.attempt)
    ensures DeskOf(intent) !in w.desks && ShelfOf(intent) !in w.shelves
  {
  }

  lemma Renamed(sha: Bytes -> Id, before: World, after: World, renamed: set<Id>, intent: Intent)
    requires WorldOk(sha, before, renamed)
    requires intent.publication in before.records && before.records[intent.publication] == Record(intent, Staged)
    requires DeskOf(intent) in before.desks && Exact(sha, before.desks[DeskOf(intent)], intent)
    requires after == World(before.records, before.desks - {DeskOf(intent)}, before.shelves[ShelfOf(intent) := before.desks[DeskOf(intent)]])
    ensures WorldOk(sha, after, renamed + {intent.publication})
  {
    hide Exact;
    assert Known(after.records, intent.attempt);
    forall p | p in after.records
      ensures RecordOk(sha, after, p, renamed + {intent.publication})
    {
      assert RecordOk(sha, before, p, renamed);
    }
  }

  // A renamed record becomes committed or waits for reconciliation; one that was not renamed fails.
  lemma Moved(sha: Bytes -> Id, before: World, after: World, renamed: set<Id>, intent: Intent)
    requires WorldOk(sha, before, renamed)
    requires intent.publication in before.records && before.records[intent.publication].intent == intent
    requires ShelfOf(intent) in before.shelves
    requires intent.publication in after.records
    requires after.records[intent.publication].state in {before.records[intent.publication].state, Required, Committed(PathOf(intent))}
    requires after == before.(records := before.records[intent.publication := Record(intent, after.records[intent.publication].state)])
    ensures WorldOk(sha, after, renamed)
  {
    Restated(sha, before, after, renamed, intent);
  }

  lemma Unmoved(sha: Bytes -> Id, before: World, after: World, renamed: set<Id>, intent: Intent)
    requires WorldOk(sha, before, renamed)
    requires intent.publication in before.records && before.records[intent.publication].intent == intent
    requires ShelfOf(intent) !in before.shelves
    requires intent.publication in after.records
    requires after.records[intent.publication].state in {before.records[intent.publication].state, Failed}
    requires after == before.(records := before.records[intent.publication := Record(intent, after.records[intent.publication].state)])
    ensures WorldOk(sha, after, renamed)
  {
    Restated(sha, before, after, renamed, intent);
  }

  lemma Restated(sha: Bytes -> Id, before: World, after: World, renamed: set<Id>, intent: Intent)
    requires WorldOk(sha, before, renamed)
    requires intent.publication in before.records && before.records[intent.publication].intent == intent
    requires intent.publication in after.records && after.records[intent.publication].intent == intent
    requires after == before.(records := before.records[intent.publication := after.records[intent.publication]])
    requires var state := after.records[intent.publication].state;
             || state == before.records[intent.publication].state
             || if ShelfOf(intent) in before.shelves then state == Required || state == Committed(PathOf(intent)) else state == Failed
    ensures WorldOk(sha, after, renamed)
  {
    hide Exact;
    forall a | Known(before.records, a)
      ensures Known(after.records, a)
    {
      var p :| p in before.records && before.records[p].intent.attempt == a;
      assert p in after.records && after.records[p].intent.attempt == a;
    }
    forall p | p in after.records
      ensures RecordOk(sha, after, p, renamed)
    {
      assert RecordOk(sha, before, p, renamed);
    }
  }
}
