/**
 Content-addressed files: uploads store bytes under the tenant's lock and then commit the row;
 removals commit first, then lock again, check for references and unlink.  Processes stop
 anywhere (a stop releases the lock and rolls back).  A process keeps only what it read.
 */
module Files {
  import opened Common

  type Tenant = nat
  type Sha = nat
  type DocId = nat

  datatype Mime = Pdf | Docx | Markdown | Text | Png | Jpeg | Tiff | Bmp | Webp | Gif | Heic | Heif

  function Extension(mime: Mime): string {
    match mime
    case Pdf => ".pdf"
    case Docx => ".docx"
    case Markdown => ".md"
    case Text => ".txt"
    case Png => ".png"
    case Jpeg => ".jpg"
    case Tiff => ".tiff"
    case Bmp => ".bmp"
    case Webp => ".webp"
    case Gif => ".gif"
    case Heic => ".heic"
    case Heif => ".heif"
  }

  const SEARCHABLE := ".ocr.pdf"

  datatype Key = Key(tenant: Tenant, sha: Sha, extension: string)

  datatype Doc = Doc(tenant: Tenant, collection: nat, sha: Sha, mime: Mime, searchable: Option<Sha>)

  function KeyOf(doc: Doc): Key {
    Key(doc.tenant, doc.sha, Extension(doc.mime))
  }

  /** What a removal still has to look at. */
  datatype Target = Original(sha: Sha, mime: Mime) | Derived(sha: Sha)

  function TargetKey(tenant: Tenant, target: Target): Key {
    match target
    case Original(sha, mime) => Key(tenant, sha, Extension(mime))
    case Derived(sha) => Key(tenant, sha, SEARCHABLE)
  }

  datatype Phase =
    | Idle
    | Locked(doc: Doc)                                              // lock held, file not stored yet
    | Placed(doc: Doc)                                              // lock held, file stored, row not committed
    | Removing(tenant: Tenant, ids: seq<DocId>, todo: seq<Target>)  // lock held, rows not deleted yet
    | Sweeping(tenant: Tenant, todo: seq<Target>)                   // rows deleted, no lock
    | Checking(tenant: Tenant, todo: seq<Target>)                   // lock held again
    | Unlinking(tenant: Tenant, todo: seq<Target>)                  // lock held, first target found unreferenced
    | Detached(doc: Doc)                                            // source sync: stored, no lock, not committed
  {
    predicate Holds(t: Tenant) {
      match this
      case Idle => false
      case Locked(doc) => doc.tenant == t
      case Placed(doc) => doc.tenant == t
      case Removing(tenant, _, _) => tenant == t
      case Sweeping(_, _) => false
      case Checking(tenant, _) => tenant == t
      case Unlinking(tenant, _) => tenant == t
      case Detached(_) => false
    }
  }

  /** A tenant's lock is the row lock of the one transaction whose phase holds it. */
  datatype State = State(rows: map<DocId, Doc>, files: set<Key>, phases: seq<Phase>)

  datatype Step =
    | BeginUpload(p: nat, doc: Doc)
    | Store(p: nat)
    | CommitUpload(p: nat, id: DocId)
    | BeginRemoval(p: nat, tenant: Tenant, ids: seq<DocId>, derived: bool)
    | CommitRemoval(p: nat)
    | Vanish(p: nat, tenant: Tenant, ids: seq<DocId>)
    | Relock(p: nat)
    | Check(p: nat)
    | Unlink(p: nat)
    | Finish(p: nat)
    | Stop(p: nat)
    | Detach(p: nat)
    | SyncCommit(p: nat, id: DocId)
    | StoreSearchable(tenant: Tenant, sha: Sha)
    | CommitSearchable(id: DocId, sha: Sha)

  ghost predicate Free(s: State, tenant: Tenant) {
    forall p :: 0 <= p < |s.phases| ==> !s.phases[p].Holds(tenant)
  }

  function Moved(s: State, p: nat, phase: Phase): State
    requires p < |s.phases|
  {
    s.(phases := s.phases[p := phase])
  }

  function TargetsOf(rows: map<DocId, Doc>, ids: seq<DocId>, derived: bool): seq<Target>
    requires forall id :: id in ids ==> id in rows
  {
    if ids == [] then []
    else
      var doc := rows[ids[0]];
      (if derived && doc.searchable.Some? then [Derived(doc.searchable.value)] else [])
        + [Original(doc.sha, doc.mime)] + TargetsOf(rows, ids[1..], derived)
  }

  function Without(rows: map<DocId, Doc>, ids: seq<DocId>): map<DocId, Doc> {
    map id | id in rows && id !in ids :: rows[id]
  }

  /** Does a committed row of the tenant still point at it? */
  ghost predicate Referenced(rows: map<DocId, Doc>, tenant: Tenant, target: Target) {
    exists id :: id in rows && PointsAt(rows[id], tenant, target)
  }

  predicate PointsAt(doc: Doc, tenant: Tenant, target: Target) {
    doc.tenant == tenant &&
    match target
    case Original(sha, mime) => doc.sha == sha && doc.mime == mime
    case Derived(sha) => doc.searchable == Some(sha)
  }

  /** The unique constraint on collection and digest. */
  ghost predicate Duplicate(rows: map<DocId, Doc>, doc: Doc, self: DocId) {
    exists id :: id in rows && id != self && rows[id].collection == doc.collection && rows[id].sha == doc.sha
  }

  ghost predicate Enabled(s: State, step: Step) {
    match step
    case BeginUpload(p, doc) => p < |s.phases| && s.phases[p].Idle? && Free(s, doc.tenant) && doc.searchable.None?
    case Store(p) => p < |s.phases| && s.phases[p].Locked?
    case CommitUpload(p, id) => p < |s.phases| && s.phases[p].Placed? && id !in s.rows
    case BeginRemoval(p, tenant, ids, _) =>
      p < |s.phases| && s.phases[p].Idle? && Free(s, tenant) && forall id ::
        id in ids
        ==> id in s.rows && s.rows[id].tenant == tenant
    case CommitRemoval(p) => p < |s.phases| && s.phases[p].Removing?
    case Vanish(p, tenant, ids) =>
      p < |s.phases| && s.phases[p].Idle? && forall id :: id in ids ==> id in s.rows && s.rows[id].tenant == tenant
    case Relock(p) => p < |s.phases| && s.phases[p].Sweeping? && Free(s, s.phases[p].tenant)
    case Check(p) => p < |s.phases| && s.phases[p].Checking? && s.phases[p].todo != []
    case Unlink(p) => p < |s.phases| && s.phases[p].Unlinking? && s.phases[p].todo != []
    case Finish(p) => p < |s.phases| && s.phases[p].Checking?
    case Stop(p) => p < |s.phases|
    case Detach(p) => p < |s.phases| && s.phases[p].Placed?
    case SyncCommit(p, id) =>
      p < |s.phases| && s.phases[p].Detached? &&
      (id in s.rows ==>
       s.rows[id].tenant == s.phases[p].doc.tenant
       && s.rows[id].collection == s.phases[p].doc.collection)
    case StoreSearchable(_, _) => true
    case CommitSearchable(id, _) => id in s.rows
  }

  ghost function SyncCommitted(s: State, p: nat, id: DocId): State
    requires Enabled(s, SyncCommit(p, id))
  {
    var doc := s.phases[p].doc;
    if Duplicate(s.rows, doc, id) then Moved(s, p, Sweeping(doc.tenant, [Original(doc.sha, doc.mime)]))
    else if id in s.rows then
      var before := s.rows[id];
      Moved(s.(rows := s.rows[id := doc.(searchable := before.searchable)]), p,
            Sweeping(doc.tenant, [Original(before.sha, before.mime)]))
    else Moved(s.(rows := s.rows[id := doc]), p, Idle)
  }

  ghost function Apply(s: State, step: Step): State
    requires Enabled(s, step)
  {
    match step
    case BeginUpload(p, doc) => Moved(s, p, Locked(doc))
    case Store(p) => Moved(s.(files := s.files + {KeyOf(s.phases[p].doc)}), p, Placed(s.phases[p].doc))
    case CommitUpload(p, id) =>
      var doc := s.phases[p].doc;
      Moved(if Duplicate(s.rows, doc, id) then s else s.(rows := s.rows[id := doc]), p, Idle)
    case BeginRemoval(p, tenant, ids, derived) => Moved(s, p, Removing(tenant, ids, TargetsOf(s.rows, ids, derived)))
    case CommitRemoval(p) =>
      Moved(s.(rows := Without(s.rows, s.phases[p].ids)), p, Sweeping(s.phases[p].tenant, s.phases[p].todo))
    case Vanish(p, tenant, ids) =>
      Moved(s.(rows := Without(s.rows, ids)), p, Sweeping(tenant, TargetsOf(s.rows, ids, false)))
    case Relock(p) => Moved(s, p, Checking(s.phases[p].tenant, s.phases[p].todo))
    case Check(p) =>
      var phase := s.phases[p];
      Moved(s, p, if Referenced(s.rows, phase.tenant, phase.todo[0]) then Checking(phase.tenant, phase.todo[1..])
                  else Unlinking(phase.tenant, phase.todo))
    case Unlink(p) =>
      var phase := s.phases[p];
      Moved(s.(files := s.files - {TargetKey(phase.tenant, phase.todo[0])}), p, Checking(phase.tenant, phase.todo[1..]))
    case Finish(p) =>
      var phase := s.phases[p];
      Moved(s, p, if phase.todo == [] then Idle else Sweeping(phase.tenant, phase.todo))
    case Stop(p) => Moved(s, p, Idle)
    case Detach(p) => Moved(s, p, Detached(s.phases[p].doc))
    case SyncCommit(p, id) => SyncCommitted(s, p, id)
    case StoreSearchable(tenant, sha) => s.(files := s.files + {Key(tenant, sha, SEARCHABLE)})
    case CommitSearchable(id, sha) => s.(rows := s.rows[id := s.rows[id].(searchable := Some(sha))])
  }

  ghost predicate IsStart(s: State) {
    s.rows == map[] && forall p :: 0 <= p < |s.phases| ==> s.phases[p] == Idle
  }

  ghost predicate IsPath(states: seq<State>, steps: seq<Step>) {
    && |states| == |steps| + 1
    && forall i :: 0 <= i < |steps| ==> Enabled(states[i], steps[i]) && states[i + 1] == Apply(states[i], steps[i])
  }

  ghost predicate IsRun(states: seq<State>, steps: seq<Step>) {
    IsPath(states, steps) && IsStart(states[0])
  }

  /** Every committed reference to an original has its file. */
  ghost predicate NothingDangles(s: State) {
    forall id :: id in s.rows ==> KeyOf(s.rows[id]) in s.files
  }

  // ---- addresses ----------------------------------------------------------------------------------------

  function MimeOf(extension: string): Option<Mime> {
    if |extension| == 3 then Some(Markdown)
    else if |extension| == 4 then
      (match extension[1]
       case 'p' => Some(if extension[2] == 'd' then Pdf else Png)
       case 't' => Some(Text)
       case 'j' => Some(Jpeg)
       case 'b' => Some(Bmp)
       case _ => Some(Gif))
    else if |extension| == 5 then
      (match extension[1]
       case 'd' => Some(Docx)
       case 't' => Some(Tiff)
       case 'w' => Some(Webp)
       case _ => Some(if extension[4] == 'c' then Heic else Heif))
    else None
  }

  /** The table of extensions is injective and never yields the derived copies' extension, so
      an address names one kind of file. */
  lemma {:induction false} ExtensionsIdentify(mime: Mime)
    ensures MimeOf(Extension(mime)) == Some(mime) && Extension(mime) != SEARCHABLE
  {
  }

  /** So looking rows up by digest and media type is looking them up by address. */
  lemma {:induction false} ReferencedByAddress(rows: map<DocId, Doc>, tenant: Tenant, target: Target, id: DocId)
    requires id in rows && KeyOf(rows[id]) == TargetKey(tenant, target)
    ensures Referenced(rows, tenant, target) && target.Original?
  {
    ExtensionsIdentify(rows[id].mime);
    if target.Original? {
      ExtensionsIdentify(target.mime);
    }
  }

  // ---- the invariant --------------------------------------------------------------------------------------

  ghost predicate LocksOk(s: State) {
    forall p: nat, q: nat, t: Tenant ::
      p < |s.phases| && q < |s.phases| && s.phases[p].Holds(t) && s.phases[q].Holds(t) ==>
      p == q
  }

  /** A stored but uncommitted original is in place, and an address about to be unlinked is
      not referenced: the lock keeps either true until its holder moves. */
  ghost predicate PhaseOk(s: State, phase: Phase) {
    && (phase.Placed? ==> KeyOf(phase.doc) in s.files)
    && (phase.Unlinking? ==> phase.todo != [] && Spared(s.rows, TargetKey(phase.tenant, phase.todo[0])))
  }

  ghost predicate Spared(rows: map<DocId, Doc>, key: Key) {
    forall id :: id in rows ==> KeyOf(rows[id]) != key
  }

  ghost predicate Inv(s: State) {
    && LocksOk(s) && NothingDangles(s)
    && forall p :: 0 <= p < |s.phases| ==> PhaseOk(s, s.phases[p])
  }

  lemma {:induction false} StepKeepsLocks(s: State, step: Step)
    requires LocksOk(s) && Enabled(s, step)
    ensures LocksOk(Apply(s, step))
  {
  }

  /** The process that acts, if any. */
  ghost predicate IsActor(step: Step, p: nat) {
    match step
    case StoreSearchable(_, _) => false
    case CommitSearchable(_, _) => false
    case BeginUpload(q, _) => p == q
    case Store(q) => p == q
    case CommitUpload(q, _) => p == q
    case BeginRemoval(q, _, _, _) => p == q
    case CommitRemoval(q) => p == q
    case Vanish(q, _, _) => p == q
    case Relock(q) => p == q
    case Check(q) => p == q
    case Unlink(q) => p == q
    case Finish(q) => p == q
    case Stop(q) => p == q
    case Detach(q) => p == q
    case SyncCommit(q, _) => p == q
  }

  lemma {:induction false} ActorPhaseOk(s: State, step: Step, p: nat)
    requires Inv(s) && Enabled(s, step) && IsActor(step, p)
    ensures p < |s.phases| && PhaseOk(Apply(s, step), Apply(s, step).phases[p])
  {
    if step.Check? && !Referenced(s.rows, s.phases[p].tenant, s.phases[p].todo[0]) {
      forall id | id in s.rows ensures KeyOf(s.rows[id]) != TargetKey(s.phases[p].tenant, s.phases[p].todo[0]) {
        if KeyOf(s.rows[id]) == TargetKey(s.phases[p].tenant, s.phases[p].todo[0]) {
          ReferencedByAddress(s.rows, s.phases[p].tenant, s.phases[p].todo[0], id);
        }
      }
    }
  }

  lemma {:induction false} OtherPhaseOk(s: State, step: Step, q: nat)
    requires Inv(s) && Enabled(s, step) && !step.SyncCommit? && q < |s.phases| && !IsActor(step, q)
    ensures PhaseOk(Apply(s, step), s.phases[q])
  {
    var phase := s.phases[q];
    if step.Unlink? && phase.Placed? && s.phases[step.p].tenant == phase.doc.tenant {
      assert s.phases[step.p].Holds(phase.doc.tenant) && phase.Holds(phase.doc.tenant);
    }
    if step.CommitUpload? && phase.Unlinking? && s.phases[step.p].doc.tenant == phase.tenant {
      assert s.phases[step.p].Holds(phase.tenant) && phase.Holds(phase.tenant);
    }
  }

  lemma {:induction false} StepKeepsReferences(s: State, step: Step)
    requires Inv(s) && Enabled(s, step) && !step.SyncCommit?
    ensures NothingDangles(Apply(s, step))
  {
  }

  lemma {:induction false} StepKeepsInv(s: State, step: Step)
    requires Inv(s) && Enabled(s, step) && !step.SyncCommit?
    ensures Inv(Apply(s, step))
  {
    StepKeepsLocks(s, step);
    StepKeepsReferences(s, step);
    var s' := Apply(s, step);
    forall p: nat | p < |s'.phases| ensures PhaseOk(s', s'.phases[p]) {
      if IsActor(step, p) {
        ActorPhaseOk(s, step, p);
      } else {
        OtherPhaseOk(s, step, p);
        assert s'.phases[p] == s.phases[p];
      }
    }
  }

  // ---- the unlocked commit ------------------------------------------------------------------------------------

  /** An address a source sync is about to reference is in danger when its file has gone since
      it was stored, or when another process is past its check and about to unlink it. */
  ghost predicate Endangered(s: State, key: Key) {
    key !in s.files || exists p :: 0 <= p < |s.phases| && s.phases[p].Unlinking? && s.phases[p].todo != []
                                   && TargetKey(s.phases[p].tenant, s.phases[p].todo[0]) == key
  }

  /** The unique constraint refuses the row, or its address is not in danger. */
  ghost predicate Harmless(s: State, p: nat, id: DocId)
    requires Enabled(s, SyncCommit(p, id))
  {
    Duplicate(s.rows, s.phases[p].doc, id) || !Endangered(s, KeyOf(s.phases[p].doc))
  }

  ghost predicate SyncsHarmless(states: seq<State>, steps: seq<Step>)
    requires IsPath(states, steps)
  {
    forall i :: 0 <= i < |steps| && steps[i].SyncCommit? ==> Harmless(states[i], steps[i].p, steps[i].id)
  }

  lemma {:induction false} HarmlessSyncKeepsInv(s: State, p: nat, id: DocId)
    requires Inv(s) && Enabled(s, SyncCommit(p, id)) && Harmless(s, p, id)
    ensures Inv(Apply(s, SyncCommit(p, id)))
  {
    StepKeepsLocks(s, SyncCommit(p, id));
    ActorPhaseOk(s, SyncCommit(p, id), p);
  }

  lemma {:induction false} PathKeepsInv(states: seq<State>, steps: seq<Step>, n: nat)
    requires IsPath(states, steps) && Inv(states[0]) && SyncsHarmless(states, steps) && n <= |steps|
    ensures Inv(states[n])
  {
    if n > 0 {
      PathKeepsInv(states, steps, n - 1);
      assert Enabled(states[n - 1], steps[n - 1]);
      if steps[n - 1].SyncCommit? {
        HarmlessSyncKeepsInv(states[n - 1], steps[n - 1].p, steps[n - 1].id);
      } else {
        StepKeepsInv(states[n - 1], steps[n - 1]);
      }
    }
  }

  // ---- main results -----------------------------------------------------------------------------------------

  /** However uploads, deletions, wipes, source syncs and stops interleave, every committed
      document keeps its original, as long as each commit of a source sync is harmless. */
  lemma {:induction false} CommittedOriginalsSurvive(states: seq<State>, steps: seq<Step>, n: nat, id: DocId)
    requires IsRun(states, steps) && SyncsHarmless(states, steps) && n <= |steps| && id in states[n].rows
    ensures KeyOf(states[n].rows[id]) in states[n].files
  {
    PathKeepsInv(states, steps, n);
  }

  /** Everything that can follow, later commits of source syncs being harmless, is free of
      dangling references. */
  ghost predicate StaysSound(s: State) {
    forall states: seq<State>, steps: seq<Step> ::
      IsPath(states, steps) && states[0] == s
      && SyncsHarmless(states, steps) ==>
      NothingDangles(states[|steps|])
  }

  /** Source sync stores under the lock but commits without it.  Its commit is sound exactly
      when the address it is about to reference is not in danger at that moment (or when the
      unique constraint refuses the row anyway). */
  lemma {:induction false} SyncCommitSoundIff(s: State, p: nat, id: DocId)
    requires Inv(s) && Enabled(s, SyncCommit(p, id)) && !Duplicate(s.rows, s.phases[p].doc, id)
    ensures StaysSound(Apply(s, SyncCommit(p, id))) <==> !Endangered(s, KeyOf(s.phases[p].doc))
  {
    var s' := Apply(s, SyncCommit(p, id));
    var key := KeyOf(s.phases[p].doc);
    assert id in s'.rows && KeyOf(s'.rows[id]) == key;
    if !Endangered(s, key) {
      HarmlessSyncKeepsInv(s, p, id);
      forall states: seq<State>, steps: seq<Step> | IsPath(states, steps) && states[0] == s'
        && SyncsHarmless(states, steps)
        ensures NothingDangles(states[|steps|])
      {
        PathKeepsInv(states, steps, |steps|);
      }
    } else if key !in s.files {
      assert IsPath([s'], []) && !NothingDangles(s');
    } else {
      var q: nat :| q < |s.phases| && s.phases[q].Unlinking? && s.phases[q].todo != []
                    && TargetKey(s.phases[q].tenant, s.phases[q].todo[0]) == key;
      var t := Apply(s', Unlink(q));
      assert IsPath([s', t], [Unlink(q)]) && !NothingDangles(t);
    }
  }

  ghost predicate Reaches(s: State, t: State) {
    exists states: seq<State>, steps: seq<Step> :: IsPath(states, steps) && states[0] == s && states[|steps|] == t
  }

  lemma {:induction false} ReachesOnward(s: State, t: State, u: State)
    requires Reaches(s, t) && Reaches(t, u)
    ensures Reaches(s, u)
  {
    var states: seq<State>, steps: seq<Step> :| IsPath(states, steps) && states[0] == s && states[|steps|] == t;
    var states': seq<State>, steps': seq<Step> :| IsPath(states', steps') && states'[0] == t && states'[|steps'|] == u;
    var all, done := states + states'[1..], steps + steps';
    forall i | 0 <= i < |done| ensures Enabled(all[i], done[i]) && all[i + 1] == Apply(all[i], done[i]) {
      if i < |steps| {
        assert all[i] == states[i] && all[i + 1] == states[i + 1];
      } else {
        assert all[i] == states'[i - |steps|] && all[i + 1] == states'[i - |steps| + 1];
      }
    }
    assert IsPath(all, done) && all[0] == s && all[|done|] == u;
  }

  predicate SamePage(page: Doc, copy: Doc) {
    && page.tenant == copy.tenant && page.sha == copy.sha && page.mime == copy.mime
       && page.collection != copy.collection
    && page.searchable.None? && copy.searchable.None?
  }

  const NOTHING := State(map[], {}, [Idle, Idle])

  function CopyUploaded(copy: Doc): State {
    State(map[0 := copy], {KeyOf(copy)}, [Idle, Idle])
  }

  function PageStored(page: Doc, copy: Doc): State {
    State(map[0 := copy], {KeyOf(page)}, [Idle, Detached(page)])
  }

  function CopyRemoved(page: Doc): State {
    State(map[], {KeyOf(page)}, [Sweeping(page.tenant, [Original(page.sha, page.mime)]), Detached(page)])
  }

  /** A document is uploaded ... */
  lemma {:induction false} CopyIsUploaded(copy: Doc)
    requires copy.searchable.None?
    ensures Reaches(NOTHING, CopyUploaded(copy))
  {
    var s1 := Apply(NOTHING, BeginUpload(0, copy));
    assert s1.phases == [Locked(copy), Idle];
    var s2 := Apply(s1, Store(0));
    assert s2.phases == [Placed(copy), Idle];
    var s3 := Apply(s2, CommitUpload(0, 0));
    assert s3.rows == map[0 := copy] && s3.files == {KeyOf(copy)} && s3.phases == [Idle, Idle];
    assert IsPath([NOTHING, s1, s2, s3], [BeginUpload(0, copy), Store(0), CommitUpload(0, 0)]);
  }

  /** ... a sync stores a page with the same text ... */
  lemma {:induction false} PageIsStored(page: Doc, copy: Doc)
    requires SamePage(page, copy)
    ensures Reaches(CopyUploaded(copy), PageStored(page, copy))
  {
    var s3 := CopyUploaded(copy);
    var s4 := Apply(s3, BeginUpload(1, page));
    assert s4.phases == [Idle, Locked(page)];
    var s5 := Apply(s4, Store(1));
    assert s5.phases == [Idle, Placed(page)] && s5.files == {KeyOf(page)};
    var s6 := Apply(s5, Detach(1));
    assert s6.phases == [Idle, Detached(page)];
    assert IsPath([s3, s4, s5, s6], [BeginUpload(1, page), Store(1), Detach(1)]);
  }

  /** ... the document is deleted ... */
  lemma {:induction false} CopyIsRemoved(page: Doc, copy: Doc)
    requires SamePage(page, copy)
    ensures Reaches(PageStored(page, copy), CopyRemoved(page))
  {
    var todo := [Original(page.sha, page.mime)];
    var s6 := PageStored(page, copy);
    assert TargetsOf(s6.rows, [0], false) == todo by {
      assert [0][1..] == [];
    }
    var s7 := Apply(s6, BeginRemoval(0, page.tenant, [0], false));
    assert s7.phases == [Removing(page.tenant, [0], todo), Detached(page)];
    var s8 := Apply(s7, CommitRemoval(0));
    assert s8.rows == map[] && s8.phases == CopyRemoved(page).phases;
    assert IsPath([s6, s7, s8], [BeginRemoval(0, page.tenant, [0], false), CommitRemoval(0)]);
  }

  /** ... and its file unlinked, and only then the sync commits. */
  lemma {:induction false} SyncCommitsTooLate(page: Doc)
    requires page.searchable.None?
    ensures exists end :: Reaches(CopyRemoved(page), end) && !NothingDangles(end)
  {
    var t, todo := page.tenant, [Original(page.sha, page.mime)];
    var s8 := CopyRemoved(page);
    var s9 := Apply(s8, Relock(0));
    assert s9.phases == [Checking(t, todo), Detached(page)];
    var s10 := Apply(s9, Check(0));
    assert s10.phases == [Unlinking(t, todo), Detached(page)];
    var s11 := Apply(s10, Unlink(0));
    assert s11.rows == map[] && s11.phases[1] == Detached(page) && KeyOf(page) !in s11.files;
    var s12 := Apply(s11, SyncCommit(1, 1));
    assert s12.rows[1] == page && KeyOf(page) !in s12.files;
    assert IsPath([s8, s9, s10, s11, s12], [Relock(0), Check(0), Unlink(0), SyncCommit(1, 1)]);
    assert Reaches(s8, s12);
  }

  /** So there is a run, from nothing, after which a committed page has lost its file. */
  lemma {:induction false} SyncCanDangle(page: Doc, copy: Doc)
    requires SamePage(page, copy)
    ensures exists end :: Reaches(NOTHING, end) && !NothingDangles(end)
  {
    CopyIsUploaded(copy);
    PageIsStored(page, copy);
    ReachesOnward(NOTHING, CopyUploaded(copy), PageStored(page, copy));
    CopyIsRemoved(page, copy);
    ReachesOnward(NOTHING, PageStored(page, copy), CopyRemoved(page));
    SyncCommitsTooLate(page);
    var end :| Reaches(CopyRemoved(page), end) && !NothingDangles(end);
    ReachesOnward(NOTHING, CopyRemoved(page), end);
  }

  // ---- rows and files, updated in place ---------------------------------------------------------------------

  class Depot {
    var rows: map<DocId, Doc>
    var files: set<Key>
    var phases: seq<Phase>

    function Snapshot(): State
      reads this
    {
      State(rows, files, phases)
    }

    constructor (processes: nat)
      ensures IsStart(Snapshot()) && |phases| == processes
    {
      rows, files, phases := map[], {}, seq(processes, _ => Idle);
    }

    method IsReferenced(tenant: Tenant, target: Target) returns (found: bool)
      ensures found <==> Referenced(rows, tenant, target)
    {
      found := false;
      var rest := rows.Keys;
      while rest != {}
        invariant rest <= rows.Keys
        invariant found <==> exists id :: id in rows && id !in rest && PointsAt(rows[id], tenant, target)
        decreases |rest|
      {
        var id :| id in rest;
        if PointsAt(rows[id], tenant, target) {
          found := true;
        }
        rest := rest - {id};
      }
    }

    method HasDuplicate(doc: Doc, self: DocId) returns (found: bool)
      ensures found <==> Duplicate(rows, doc, self)
    {
      found := false;
      var rest := rows.Keys;
      while rest != {}
        invariant rest <= rows.Keys
        invariant found <==> exists id ::
          id in rows && id !in rest && id != self
          && rows[id].collection == doc.collection && rows[id].sha == doc.sha
        decreases |rest|
      {
        var id :| id in rest;
        if id != self && rows[id].collection == doc.collection && rows[id].sha == doc.sha {
          found := true;
        }
        rest := rest - {id};
      }
    }

    method StoreFile(p: nat)
      requires Enabled(Snapshot(), Store(p))
      modifies this
      ensures Snapshot() == Apply(old(Snapshot()), Store(p))
    {
      files := files + {KeyOf(phases[p].doc)};
      phases := phases[p := Placed(phases[p].doc)];
    }

    /** The row becomes visible and the lock is released, or the unique constraint refuses it. */
    method CommitRow(p: nat, id: DocId) returns (accepted: bool)
      requires Enabled(Snapshot(), CommitUpload(p, id))
      modifies this
      ensures Snapshot() == Apply(old(Snapshot()), CommitUpload(p, id))
      ensures accepted <==> !Duplicate(old(rows), old(phases[p]).doc, id)
    {
      var doc := phases[p].doc;
      var duplicate := HasDuplicate(doc, id);
      if !duplicate {
        rows := rows[id := doc];
      }
      phases := phases[p := Idle];
      accepted := !duplicate;
    }

    method DeleteRows(p: nat)
      requires Enabled(Snapshot(), CommitRemoval(p))
      modifies this
      ensures Snapshot() == Apply(old(Snapshot()), CommitRemoval(p))
    {
      var phase := phases[p];
      rows := map id | id in rows && id !in phase.ids :: rows[id];
      phases := phases[p := Sweeping(phase.tenant, phase.todo)];
    }

    /** One target under the lock: what another document still needs stays. */
    method DeleteIfUnreferenced(p: nat)
      requires Enabled(Snapshot(), Check(p))
      modifies this
      ensures rows == old(rows) && phases == old(phases)[p := Checking(old(phases[p]).tenant, old(phases[p]).todo[1..])]
      ensures files == old(files) -
        if Referenced(old(rows), old(phases[p]).tenant, old(phases[p]).todo[0]) then {}
        else {TargetKey(old(phases[p]).tenant, old(phases[p]).todo[0])}
      ensures Reaches(old(Snapshot()), Snapshot())
    {
      ghost var s0 := Snapshot();
      var phase := phases[p];
      var needed := IsReferenced(phase.tenant, phase.todo[0]);
      if needed {
        phases := phases[p := Checking(phase.tenant, phase.todo[1..])];
        assert IsPath([s0, Snapshot()], [Check(p)]);
      } else {
        phases := phases[p := Unlinking(phase.tenant, phase.todo)];
        ghost var s1 := Snapshot();
        assert s1 == Apply(s0, Check(p));
        files := files - {TargetKey(phase.tenant, phase.todo[0])};
        phases := phases[p := Checking(phase.tenant, phase.todo[1..])];
        assert Snapshot() == Apply(s1, Unlink(p));
        assert IsPath([s0, s1, Snapshot()], [Check(p), Unlink(p)]);
      }
    }
  }
}
