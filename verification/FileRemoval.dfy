/** What a removal or an upload does when nobody interferes: exactly the files that nothing needs any
    more are gone, and the uploaded one is there. */
module FileRemoval {
  import opened Common
  import opened Files

  /** The target of this document that a removal looks at: its original, or its derived copy. */
  ghost predicate IsTargetOf(doc: Doc, derived: bool, target: Target) {
    || target == Original(doc.sha, doc.mime)
    || (derived && target.Derived? && doc.searchable == Some(target.sha))
  }

  lemma {:induction false} TargetsAre(rows: map<DocId, Doc>, ids: seq<DocId>, derived: bool, target: Target)
    requires forall id :: id in ids ==> id in rows
    ensures target in TargetsOf(rows, ids, derived) <==> exists id :: id in ids && IsTargetOf(rows[id], derived, target)
  {
    if ids != [] {
      TargetsAre(rows, ids[1..], derived, target);
      assert ids == [ids[0]] + ids[1..] && ids[0] in ids;
    }
  }

  /** A file of the tenant that one of these targets names and no row needs. */
  ghost predicate Garbage(rows: map<DocId, Doc>, tenant: Tenant, todo: seq<Target>, key: Key) {
    exists target :: target in todo && TargetKey(tenant, target) == key && !Referenced(rows, tenant, target)
  }

  ghost predicate Collected(s: State, files: set<Key>, rows: map<DocId, Doc>, tenant: Tenant, todo: seq<Target>) {
    forall key :: key in files <==> key in s.files && !Garbage(rows, tenant, todo, key)
  }

  lemma {:induction false} Steps(s: State, step: Step)
    requires Enabled(s, step)
    ensures Reaches(s, Apply(s, step))
  {
    assert IsPath([s, Apply(s, step)], [step]);
  }

  lemma {:induction false} Stays(s: State)
    ensures Reaches(s, s)
  {
    assert IsPath([s], []);
  }

  lemma {:induction false} OneTarget(s: State, p: nat) returns (t: State)
    requires p < |s.phases| && s.phases[p].Checking? && s.phases[p].todo != []
    ensures var phase := s.phases[p];
            && Reaches(s, t) && t.rows == s.rows && t.phases == s.phases[p := Checking(phase.tenant, phase.todo[1..])]
            && t.files == s.files - if Referenced(s.rows, phase.tenant, phase.todo[0]) then {}
                                    else {TargetKey(phase.tenant, phase.todo[0])}
  {
    hide Reaches;
    t := Apply(s, Check(p));
    Steps(s, Check(p));
    if !Referenced(s.rows, s.phases[p].tenant, s.phases[p].todo[0]) {
      var unlinked := Apply(t, Unlink(p));
      Steps(t, Unlink(p));
      ReachesOnward(s, t, unlinked);
      t := unlinked;
      assert t.phases == s.phases[p := Checking(s.phases[p].tenant, s.phases[p].todo[1..])];
    } else {
      assert s.files - {} == s.files;
    }
  }

  lemma {:induction false} CollectsOne(s: State, t: State, files: set<Key>, tenant: Tenant, todo: seq<Target>)
    requires todo != [] && t.rows == s.rows && Collected(t, files, s.rows, tenant, todo[1..])
    requires t.files == s.files - if Referenced(s.rows, tenant, todo[0]) then {} else {TargetKey(tenant, todo[0])}
    ensures Collected(s, files, s.rows, tenant, todo)
  {
    assert todo == [todo[0]] + todo[1..];
    forall key ensures Garbage(s.rows, tenant, todo, key) <==>
                         || Garbage(s.rows, tenant, todo[1..], key)
                         || (!Referenced(s.rows, tenant, todo[0]) && TargetKey(tenant, todo[0]) == key)
    {
      if !Referenced(s.rows, tenant, todo[0]) && TargetKey(tenant, todo[0]) == key {
        assert todo[0] in todo;
      }
    }
  }

  lemma {:induction false} SweepsAll(s: State, p: nat, todo: seq<Target>) returns (t: State)
    requires p < |s.phases| && s.phases[p].Checking? && s.phases[p].todo == todo
    ensures var tenant := s.phases[p].tenant;
            && Reaches(s, t) && t.rows == s.rows && t.phases == s.phases[p := Checking(tenant, [])]
            && Collected(s, t.files, s.rows, tenant, todo)
    decreases |todo|
  {
    hide Reaches;
    if todo == [] {
      t := s;
      Stays(s);
    } else {
      var tenant := s.phases[p].tenant;
      var next := OneTarget(s, p);
      t := SweepsAll(next, p, todo[1..]);
      ReachesOnward(s, next, t);
      CollectsOne(s, next, t.files, tenant, todo);
    }
  }

  /** Once its rows are gone, a removal that is let through collects, of the files it was after, exactly
      those that no row needs any more. */
  lemma {:induction false} SweepCompletes(s: State, p: nat) returns (t: State)
    requires p < |s.phases| && s.phases[p].Sweeping? && Free(s, s.phases[p].tenant)
    ensures var tenant, todo := s.phases[p].tenant, s.phases[p].todo;
            && Reaches(s, t) && t.rows == s.rows && t.phases == s.phases[p := Idle]
            && Collected(s, t.files, s.rows, tenant, todo)
  {
    hide Reaches;
    var locked := Apply(s, Relock(p));
    Steps(s, Relock(p));
    var swept := SweepsAll(locked, p, s.phases[p].todo);
    ReachesOnward(s, locked, swept);
    t := Apply(swept, Finish(p));
    Steps(swept, Finish(p));
    ReachesOnward(s, swept, t);
  }

  /** A removal nobody interferes with takes exactly its rows, and exactly the files of their documents
      that no other row needs. */
  lemma {:induction false} RemovalCompletes(s: State, p: nat, tenant: Tenant, ids: seq<DocId>, derived: bool)
    returns (t: State)
    requires Enabled(s, BeginRemoval(p, tenant, ids, derived))
    ensures Reaches(s, t) && t.phases == s.phases
    ensures forall id :: id in t.rows <==> id in s.rows && id !in ids
    ensures forall id :: id in t.rows ==> t.rows[id] == s.rows[id]
    ensures Collected(s, t.files, t.rows, tenant, TargetsOf(s.rows, ids, derived))
  {
    hide Reaches;
    var begun := Apply(s, BeginRemoval(p, tenant, ids, derived));
    Steps(s, BeginRemoval(p, tenant, ids, derived));
    var deleted := Apply(begun, CommitRemoval(p));
    Steps(begun, CommitRemoval(p));
    ReachesOnward(s, begun, deleted);
    t := SweepCompletes(deleted, p);
    ReachesOnward(s, deleted, t);
  }

  /** An upload nobody interferes with has its file in place and its row committed, unless its collection
      has the digest already. */
  lemma {:induction false} UploadCompletes(s: State, p: nat, doc: Doc, id: DocId) returns (t: State)
    requires Enabled(s, BeginUpload(p, doc)) && id !in s.rows
    ensures Reaches(s, t) && t.phases == s.phases && t.files == s.files + {KeyOf(doc)}
    ensures t.rows ==
              if exists other ::
                   other in s.rows && s.rows[other].collection == doc.collection && s.rows[other].sha == doc.sha
              then s.rows else s.rows[id := doc]
  {
    hide Reaches;
    var locked := Apply(s, BeginUpload(p, doc));
    Steps(s, BeginUpload(p, doc));
    var placed := Apply(locked, Store(p));
    Steps(locked, Store(p));
    ReachesOnward(s, locked, placed);
    t := Apply(placed, CommitUpload(p, id));
    Steps(placed, CommitUpload(p, id));
    ReachesOnward(s, placed, t);
  }

  /** A sync that stored its page's file commits the page, new or changed, unless the collection has the
      digest already; what it then no longer needs is left to its sweep: the file of the refused page,
      or the one of the page before the change. */
  lemma {:induction false} SyncCommits(s: State, p: nat, id: DocId)
    requires Enabled(s, SyncCommit(p, id))
    ensures var t, page := Apply(s, SyncCommit(p, id)), s.phases[p].doc;
            var taken := exists other ::
                other in s.rows && other != id && s.rows[other].collection == page.collection
                && s.rows[other].sha == page.sha;
            && t.files == s.files
            && (taken ==>
                t.rows == s.rows
                && t.phases == s.phases[p := Sweeping(page.tenant, [Original(page.sha, page.mime)])])
            && (!taken ==>
                && t.rows.Keys == s.rows.Keys + {id}
                && KeyOf(t.rows[id]) == KeyOf(page) && t.rows[id].collection == page.collection
                && (id !in s.rows ==> t.phases == s.phases[p := Idle])
                && (id in s.rows ==>
                    && t.rows[id].searchable == s.rows[id].searchable
                    && t.phases == s.phases[p := Sweeping(page.tenant, [Original(s.rows[id].sha, s.rows[id].mime)])]))
  {
  }
}
