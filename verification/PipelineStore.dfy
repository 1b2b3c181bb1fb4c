/** The pipeline objects that the gateway creates and prunes (internal/infra/k8s/deploypipeline.go). */
module PipelineStore {
  import opened Wrappers
  import opened Objects
  import opened Deployments
  import opened AppRepository

  datatype PipelineObject = PipelineObject(labels: PipelineLabels, spec: PipelineSpec, created: nat)

  type Store = map<Key, PipelineObject>

  // ---------- History classes ----------

  predicate ForPreview(p: PipelineObject, preview: bool) { p.spec.prNumber.Some? == preview }

  predicate OfClass(p: PipelineObject, appID: string, preview: bool) {
    p.labels.appID == appID && p.labels.preview == preview && ForPreview(p, preview)
  }

  /** The previews, or the production pipelines, of one application. */
  function Class(m: Store, appID: string, preview: bool): set<Key> {
    set k | k in m && OfClass(m[k], appID, preview)
  }

  /** Only members of the class went away, and none of them is newer than one that stayed. */
  ghost predicate Pruned(before: Store, after: Store, members: set<Key>) {
    && after.Keys <= before.Keys && before.Keys - members <= after.Keys
    && (forall k :: k in after ==> after[k] == before[k])
    && (forall k, d :: k in members && k in after && d in members && d in before && d !in after ==>
          before[d].created <= before[k].created)
  }

  function Min(a: nat, b: nat): nat { if a < b then a else b }

  /** Pruning that went through to the end. */
  ghost predicate PrunedTo(before: Store, after: Store, members: set<Key>, maxHistory: nat) {
    Pruned(before, after, members) && |members * after.Keys| == Min(|members|, maxHistory)
  }

  // ---------- Which pipeline is sure to survive ----------

  /** The other members of the class that are not older. */
  function Rivals(before: Store, members: set<Key>, x: Key): set<Key>
    requires members <= before.Keys && x in members
  {
    set k | k in members && k != x && before[k].created >= before[x].created
  }

  lemma {:induction false} OldestOf(m: Store, keys: set<Key>) returns (oldest: Key)
    requires keys <= m.Keys && keys != {}
    ensures oldest in keys && forall k :: k in keys ==> m[oldest].created <= m[k].created
    decreases |keys|
  {
    oldest :| oldest in keys;
    if keys != {oldest} {
      var other := OldestOf(m, keys - {oldest});
      if m[other].created < m[oldest].created { oldest := other; }
    }
  }

  lemma RemoveOldest(before: Store, now: Store, members: set<Key>, k: Key)
    requires members <= before.Keys && Pruned(before, now, members)
    requires k in members * now.Keys && forall j :: j in members * now.Keys ==> before[k].created <= before[j].created
    ensures Pruned(before, now - {k}, members) && members * (now - {k}).Keys == members * now.Keys - {k}
  {
  }

  /** A pruning that drops `x`, whenever enough rivals are left. */
  lemma {:induction false} PruneWithout(before: Store, now: Store, members: set<Key>, maxHistory: nat, x: Key)
    returns (after: Store)
    requires members <= before.Keys && x in members && Pruned(before, now, members)
    requires x in now ==> Rivals(before, members, x) <= now.Keys && |Rivals(before, members, x)| >= maxHistory
    requires |members| > maxHistory && |members * now.Keys| >= maxHistory
    ensures PrunedTo(before, after, members, maxHistory) && x !in after
    decreases |members * now.Keys|
  {
    var left := members * now.Keys;
    if x !in now && |left| == maxHistory { return now; }
    if x in now {
      RivalsAreMembers(before, members, x, left);
    }
    var k := OldestOf(before, left);
    if x in now && before[x].created == before[k].created { k := x; }
    RemoveOldest(before, now, members, k);
    after := PruneWithout(before, now - {k}, members, maxHistory, x);
  }

  lemma RivalsAreMembers(before: Store, members: set<Key>, x: Key, left: set<Key>)
    requires members <= before.Keys && x in members && x in left && Rivals(before, members, x) <= left
    ensures |Rivals(before, members, x)| < |left|
  {
    assert Rivals(before, members, x) + {x} <= left;
    SubsetSize(Rivals(before, members, x) + {x}, left);
  }

  lemma {:induction false} SubsetSize(a: set<Key>, b: set<Key>)
    requires a <= b
    ensures |a| <= |b|
  {
    assert a + (b - a) == b;
  }

  lemma EnoughRoom(before: Store, after: Store, members: set<Key>, maxHistory: nat, x: Key)
    requires members <= before.Keys && x in members && |Rivals(before, members, x)| < maxHistory
    requires PrunedTo(before, after, members, maxHistory)
    ensures x in after
  {
    if x !in after {
      var left := members * after.Keys;
      assert left <= Rivals(before, members, x);
      SubsetSize(left, Rivals(before, members, x));
      SubsetSize(left + {x}, members);
    }
  }

  /** A pipeline is sure to survive exactly when fewer than `maxHistory` others are not older. */
  lemma SureToSurvive(before: Store, members: set<Key>, maxHistory: nat, x: Key)
    requires members <= before.Keys && x in members
    ensures (forall after :: PrunedTo(before, after, members, maxHistory) ==> x in after) <==>
            |Rivals(before, members, x)| < maxHistory
  {
    if |Rivals(before, members, x)| < maxHistory {
      forall after | PrunedTo(before, after, members, maxHistory)
        ensures x in after
      {
        EnoughRoom(before, after, members, maxHistory, x);
      }
    } else {
      RivalsAreMembers(before, members, x, members);
      assert members * before.Keys == members;
      var after := PruneWithout(before, before, members, maxHistory, x);
      assert PrunedTo(before, after, members, maxHistory) && x !in after;
    }
  }

  /** With equal creation times the newest pipeline can be the one that goes. */
  lemma TieMayDropEither(m: Store, members: set<Key>, x: Key, y: Key)
    requires members == {x, y} && x != y && members <= m.Keys && m[x].created == m[y].created
    ensures exists after :: PrunedTo(m, after, members, 1) && x !in after
    ensures exists after :: PrunedTo(m, after, members, 1) && y !in after
  {
    assert Rivals(m, members, x) == {y} && Rivals(m, members, y) == {x};
    SureToSurvive(m, members, 1, x);
    SureToSurvive(m, members, 1, y);
  }

  // ---------- Lists of objects ----------

  datatype Item = Item(key: Key, obj: PipelineObject)

  function Keys(items: seq<Item>): set<Key> { set x | x in items :: x.key }

  lemma {:induction false} KeysAreFew(items: seq<Item>)
    ensures |Keys(items)| <= |items|
  {
    if items != [] {
      KeysAreFew(items[1..]);
      assert Keys(items) == {items[0].key} + Keys(items[1..]);
    }
  }

  /** In a list without repetition a part has no repetition and shares nothing with the rest. */
  lemma PartOfDistinct(items: seq<Item>, i: nat)
    requires i <= |items| && |Keys(items)| == |items|
    ensures |Keys(items[i..])| == |items| - i && Keys(items[..i]) * Keys(items[i..]) == {}
  {
    var u, v := items[..i], items[i..];
    KeysAreFew(u);
    KeysAreFew(v);
    assert items == u + v;
    assert Keys(items) == Keys(u) + Keys(v);
    assert |Keys(u) + Keys(v)| + |Keys(u) * Keys(v)| == |Keys(u)| + |Keys(v)|;
    assert Keys(u) * Keys(v) == {};
  }

  function Filtered(items: seq<Item>, preview: bool): seq<Item> {
    if items == [] then []
    else
      var kept, last := Filtered(items[..|items| - 1], preview), items[|items| - 1];
      if ForPreview(last.obj, preview) then kept + [last] else kept
  }

  lemma {:induction false} FilteredMembers(items: seq<Item>, preview: bool)
    ensures forall x :: x in Filtered(items, preview) <==> x in items && ForPreview(x.obj, preview)
  {
    if items != [] {
      var init, last := items[..|items| - 1], items[|items| - 1];
      FilteredMembers(init, preview);
      assert items == init + [last];
    }
  }

  lemma KeysSnoc(items: seq<Item>, last: Item)
    ensures Keys(items + [last]) == Keys(items) + {last.key}
  {
    assert last in items + [last];
  }

  lemma {:induction false} FilteredKeys(items: seq<Item>, preview: bool)
    requires |Keys(items)| == |items|
    ensures Keys(Filtered(items, preview)) <= Keys(items)
    ensures |Keys(Filtered(items, preview))| == |Filtered(items, preview)|
  {
    if items != [] {
      hide Keys, ForPreview;
      var init, last := items[..|items| - 1], items[|items| - 1];
      assert items == init + [last];
      KeysSnoc(init, last);
      KeysAreFew(init);
      FilteredKeys(init, preview);
      KeysSnoc(Filtered(init, preview), last);
    }
  }

  method FilterByPreview(list: seq<Item>, isPreview: bool) returns (result: seq<Item>)
    ensures result == Filtered(list, isPreview)
  {
    result := [];
    for i := 0 to |list|
      invariant result == Filtered(list[..i], isPreview)
    {
      assert list[..i + 1][..i] == list[..i];
      var p := list[i];
      if isPreview && p.obj.spec.prNumber.Some? {
        result := result + [p];
      }
      if !isPreview && p.obj.spec.prNumber.None? {
        result := result + [p];
      }
    }
    assert list[..|list|] == list;
  }

  // ---------- Sorting in place ----------

  predicate Sorted(items: seq<Item>) {
    forall i, j :: 0 <= i < j < |items| ==> items[i].obj.created <= items[j].obj.created
  }

  /** Sorted but for the element at `gap`, which may be smaller than those in front of it. */
  predicate SortedBut(items: seq<Item>, n: nat, gap: nat)
    requires gap <= n <= |items|
  {
    && (forall i, j :: 0 <= i < j < n && i != gap && j != gap ==> items[i].obj.created <= items[j].obj.created)
    && (forall j :: gap < j < n ==> items[gap].obj.created <= items[j].obj.created)
  }

  /** `sort.Slice`: oldest first, and in any order among equals. */
  method SortByCreation(a: array<Item>)
    modifies a
    ensures Sorted(a[..]) && multiset(a[..]) == multiset(old(a[..]))
  {
    for i := 0 to a.Length
      invariant Sorted(a[..i]) && multiset(a[..]) == multiset(old(a[..]))
    {
      Insert(a, i);
    }
    assert a[..a.Length] == a[..];
  }

  function Swapped(items: seq<Item>, i: nat): seq<Item>
    requires i + 1 < |items|
  {
    items[i := items[i + 1]][i + 1 := items[i]]
  }

  /** Moving the smaller element one place down keeps the elements and the order around it. */
  lemma SwapDown(items: seq<Item>, n: nat, gap: nat)
    requires 0 < gap < n <= |items| && SortedBut(items, n, gap)
    requires items[gap].obj.created < items[gap - 1].obj.created
    ensures SortedBut(Swapped(items, gap - 1), n, gap - 1)
    ensures multiset(Swapped(items, gap - 1)) == multiset(items)
  {
  }

  method Insert(a: array<Item>, n: nat)
    requires n < a.Length && Sorted(a[..n])
    modifies a
    ensures Sorted(a[..n + 1]) && multiset(a[..]) == multiset(old(a[..]))
  {
    var gap: nat := n;
    AppendedToSorted(a[..], n);
    while gap > 0 && a[gap].obj.created < a[gap - 1].obj.created
      invariant gap <= n && SortedBut(a[..], n + 1, gap) && multiset(a[..]) == multiset(old(a[..]))
    {
      hide SortedBut;
      ghost var before := a[..];
      SwapDown(before, n + 1, gap);
      a[gap - 1], a[gap] := a[gap], a[gap - 1];
      assert a[..] == Swapped(before, gap - 1);
      gap := gap - 1;
    }
    InsertedInSorted(a[..], n, gap);
  }

  lemma AppendedToSorted(items: seq<Item>, n: nat)
    requires n < |items| && Sorted(items[..n])
    ensures SortedBut(items, n + 1, n)
  {
    assert forall i :: 0 <= i < n ==> items[..n][i] == items[i];
  }

  lemma InsertedInSorted(items: seq<Item>, n: nat, gap: nat)
    requires gap <= n < |items| && SortedBut(items, n + 1, gap)
    requires gap > 0 ==> items[gap - 1].obj.created <= items[gap].obj.created
    ensures Sorted(items[..n + 1])
  {
    assert forall i :: 0 <= i <= n ==> items[..n + 1][i] == items[i];
  }

  // ---------- The repository ----------

  /** A list of exactly these objects, each once. */
  ghost predicate Lists(m: Store, selected: set<Key>, items: seq<Item>) {
    && |Keys(items)| == |items|
    && (forall x :: x in items ==> x.key in selected && x.key in m && m[x.key] == x.obj)
    && (forall k :: k in selected ==> k in Keys(items))
  }

  /** Sorting only reorders a list. */
  lemma SameElements(items: seq<Item>, sorted: seq<Item>)
    requires multiset(sorted) == multiset(items)
    ensures |sorted| == |items| && Keys(sorted) == Keys(items)
    ensures forall x :: x in sorted <==> x in items
  {
    assert |multiset(sorted)| == |multiset(items)|;
    forall x
      ensures x in sorted <==> x in items
    {
      assert x in sorted <==> x in multiset(sorted);
      assert x in items <==> x in multiset(items);
    }
  }

  lemma OlderFirst(items: seq<Item>, i: nat, p: Item, q: Item)
    requires Sorted(items) && i <= |items| && p in items[..i] && q in items[i..]
    ensures p.obj.created <= q.obj.created
  {
    var a :| 0 <= a < i && items[..i][a] == p;
    var b :| 0 <= b < |items| - i && items[i..][b] == q;
    assert items[a] == p && items[i + b] == q;
  }

  predicate Stored(m: Store, items: seq<Item>) { forall x :: x in items ==> x.key in m && m[x.key] == x.obj }

  lemma DeletedAreOlder(m: Store, items: seq<Item>, i: nat, d: Key, k: Key)
    requires Sorted(items) && Stored(m, items) && i <= |items| && d in Keys(items[..i]) && k in Keys(items[i..])
    ensures d in m && k in m && m[d].created <= m[k].created
  {
    var p :| p in items[..i] && p.key == d;
    var q :| q in items[i..] && q.key == k;
    assert p in items && q in items;
    OlderFirst(items, i, p, q);
  }

  /** What is left of the class after the first `i` of the sorted objects were deleted. */
  lemma DeletedPrefix(m: Store, items: seq<Item>, i: nat)
    requires i <= |items| && |Keys(items)| == |items| && Sorted(items) && Stored(m, items)
    ensures Keys(items) <= m.Keys
    ensures Pruned(m, m - Keys(items[..i]), Keys(items))
    ensures |Keys(items) * (m - Keys(items[..i])).Keys| == |items| - i
  {
    hide Stored, Sorted, Keys;
    forall k | k in Keys(items)
      ensures k in m
    {
      InStore(m, items, k);
    }
    KeptKeys(m, items, i);
    PartOfDistinct(items, i);
    forall k, d | k in Keys(items[i..]) && d in Keys(items[..i])
      ensures d in m && k in m && m[d].created <= m[k].created
    {
      DeletedAreOlder(m, items, i, d, k);
    }
  }

  lemma KeptKeys(m: Store, items: seq<Item>, i: nat)
    requires i <= |items| && |Keys(items)| == |items| && Keys(items) <= m.Keys
    ensures Keys(items) == Keys(items[..i]) + Keys(items[i..])
    ensures Keys(items) * (m - Keys(items[..i])).Keys == Keys(items[i..])
  {
    PartOfDistinct(items, i);
    assert items == items[..i] + items[i..];
  }

  lemma InStore(m: Store, items: seq<Item>, k: Key)
    requires Stored(m, items) && k in Keys(items)
    ensures k in m
  {
  }

  predicate FreeName(m: Store, name: string) { forall k :: k in m ==> k.name != name }

  class PipelineRepository {
    const appRepo: ApplicationRepository
    var pipelines: Store
    /** Every object that was ever created. */
    ghost var log: seq<Item>

    constructor (appRepo: ApplicationRepository)
      ensures this.appRepo == appRepo && pipelines == map[] && log == []
    {
      this.appRepo := appRepo;
      pipelines := map[];
      log := [];
    }

    /** The API server lists every selected object once, in any order. */
    method List(selected: set<Key>) returns (r: Result<seq<Item>>)
      requires selected <= pipelines.Keys
      ensures r.Ok? ==> Lists(pipelines, selected, r.value)
      ensures appRepo.calm ==> r.Ok?
    {
      var fails: bool := *;
      if fails && !appRepo.calm { return Err("list deployment pipelines"); }
      var items, rest := [], selected;
      while rest != {}
        invariant rest <= selected && Lists(pipelines, selected - rest, items)
        decreases |rest|
      {
        var k :| k in rest;
        KeysSnoc(items, Item(k, pipelines[k]));
        assert Keys(items) == selected - rest;
        items := items + [Item(k, pipelines[k])];
        rest := rest - {k};
      }
      assert selected - rest == selected;
      r := Ok(items);
    }

    method Delete(k: Key) returns (ok: bool)
      requires k in pipelines
      modifies this`pipelines
      ensures pipelines == old(pipelines) - {k} || (!ok && pipelines == old(pipelines))
      ensures appRepo.calm ==> ok
    {
      var fails, silent := *, *;
      if fails && !appRepo.calm { return false; }
      pipelines := pipelines - {k};
      ok := appRepo.calm || !silent;
    }

    /**
     Leaves the newest `maxHistory` pipelines of the class. After an error some prefix of the deletions
     is done, and still nothing older than a deleted pipeline is left.
     */
    method DeleteOldPipelines(applicationID: string, maxHistory: nat, isPreview: bool) returns (r: Result<()>)
      modifies this`pipelines
      ensures var members := Class(old(pipelines), applicationID, isPreview);
              && Pruned(old(pipelines), pipelines, members)
              && |members * pipelines.Keys| >= Min(|members|, maxHistory)
              && (r.Ok? ==> PrunedTo(old(pipelines), pipelines, members, maxHistory))
      ensures appRepo.calm ==> r.Ok?
    {
      ghost var members := Class(pipelines, applicationID, isPreview);
      assert members * pipelines.Keys == members;
      var list := List(Labelled(pipelines, applicationID, isPreview));
      if list.Err? { return Err(list.message); }
      var filtered := FilterByPreview(list.value, isPreview);
      ClassIsFiltered(pipelines, applicationID, isPreview, list.value);
      if |filtered| <= maxHistory { return Ok(()); }
      var items := new Item[|filtered|](i requires 0 <= i < |filtered| => filtered[i]);
      assert items[..] == filtered;
      SortByCreation(items);
      SameElements(filtered, items[..]);
      r := DeleteOldest(items, items.Length - maxHistory);
    }

    method DeleteOldest(items: array<Item>, count: nat) returns (r: Result<()>)
      requires count <= items.Length && Sorted(items[..]) && Stored(pipelines, items[..]) && |Keys(items[..])| == items.Length
      modifies this`pipelines
      ensures Pruned(old(pipelines), pipelines, Keys(items[..]))
      ensures |Keys(items[..]) * pipelines.Keys| >= items.Length - count
      ensures r.Ok? ==> |Keys(items[..]) * pipelines.Keys| == items.Length - count
      ensures appRepo.calm ==> r.Ok?
    {
      hide Keys, Pruned, Sorted, Stored;
      ghost var before := pipelines;
      DeletedPrefix(before, items[..], 0);
      NothingDeleted(before, items[..]);
      for i := 0 to count
        invariant pipelines == before - Keys(items[..][..i])
        invariant Pruned(before, pipelines, Keys(items[..])) && |Keys(items[..]) * pipelines.Keys| == items.Length - i
      {
        DeletedPrefix(before, items[..], i + 1);
        NextKey(before, items[..], i);
        var ok := Delete(items[i].key);
        if !ok { return Err("delete old deployment pipeline"); }
      }
      r := Ok(());
    }

    /** Creates a pipeline object for the first application with the right id. */
    method CreatePipeline(pipeline: Deployment) returns (r: Result<string>)
      modifies this`pipelines, this`log
      ensures log == old(log) ==> pipelines == old(pipelines)
      ensures log != old(log) ==> LogGrows(old(log), log, pipeline)
      ensures log != old(log) ==> IsNewPipeline(appRepo.apps, pipeline, log[|old(log)|].key, pipelines, old(pipelines))
      ensures r.Ok? ==> r.value == pipeline.id && log != old(log)
      ensures appRepo.calm && Known(appRepo.apps, pipeline.applicationID) && FreeName(old(pipelines), pipeline.id) ==> r.Ok?
    {
      var apps := appRepo.List(set k | k in appRepo.apps && appRepo.apps[k].labels.id == pipeline.applicationID);
      if apps.Err? { return Err("list applications"); }
      FoundIfKnown(appRepo.apps, pipeline.applicationID, apps.value);
      if |apps.value| == 0 { return Err("application not found: " + pipeline.applicationID); }
      var app := apps.value[0];
      assert app in apps.value;
      var created: nat := *;
      var cr := PipelineObject(
        PipelineLabels(pipeline.id, pipeline.applicationID, pipeline.ownerUserID, pipeline.prNumber.Some?),
        PipelineSpec(app.name, pipeline.repo.owner, pipeline.repo.name, pipeline.sha, pipeline.prNumber), created);
      var k := Key(app.namespace, pipeline.id);
      if k in pipelines { return Err("create deployment pipeline: already exists"); }
      var fails, silent := *, *;
      if fails && !appRepo.calm { return Err("create deployment pipeline"); }
      pipelines := pipelines[k := cr];
      log := log + [Item(k, cr)];
      assert IsNewPipeline(appRepo.apps, pipeline, k, pipelines, old(pipelines));
      if silent && !appRepo.calm { return Err("create deployment pipeline: no reply"); }
      r := Ok(pipeline.id);
    }
  }

  function Labelled(m: Store, appID: string, preview: bool): set<Key> {
    set k | k in m && m[k].labels.appID == appID && m[k].labels.preview == preview
  }

  /** The two label selectors and the filter on the spec together select the class. */
  lemma ClassIsFiltered(m: Store, appID: string, preview: bool, list: seq<Item>)
    requires Lists(m, Labelled(m, appID, preview), list)
    ensures var items := Filtered(list, preview);
            |Keys(items)| == |items| && Stored(m, items) && Keys(items) == Class(m, appID, preview)
  {
    FilteredMembers(list, preview);
    FilteredKeys(list, preview);
    var items := Filtered(list, preview);
    forall k | k in Class(m, appID, preview)
      ensures k in Keys(items)
    {
      assert k in Labelled(m, appID, preview);
      var x :| x in list && x.key == k;
      assert x in items;
    }
  }

  lemma NextKey(m: Store, items: seq<Item>, i: nat)
    requires i < |items| && |Keys(items)| == |items|
    ensures items[i].key !in Keys(items[..i]) && Keys(items[..i + 1]) == Keys(items[..i]) + {items[i].key}
    ensures items[i].key in Keys(items) && m - Keys(items[..i]) - {items[i].key} == m - Keys(items[..i + 1])
  {
    PartOfDistinct(items, i);
    assert items[i] in items[i..] && items[i] in items;
    assert items[..i + 1] == items[..i] + [items[i]];
    KeysSnoc(items[..i], items[i]);
  }

  lemma NothingDeleted(m: Store, items: seq<Item>)
    ensures m - Keys(items[..0]) == m
  {
  }

  /** The object says what the record says, and stands next to an application with the record's id. */
  predicate Agrees(d: Deployment, p: PipelineObject) {
    && p.labels.pipelineID == d.id && p.labels.appID == d.applicationID && p.labels.ownerUserID == d.ownerUserID
    && p.spec.owner == d.repo.owner && p.spec.repo == d.repo.name && p.spec.sha == d.sha && p.spec.prNumber == d.prNumber
    && p.labels.preview == d.prNumber.Some?
  }

  /** A pipeline that agrees with its record gives the record's fields back to whoever reads it, whatever its status is. */
  lemma AgreeingPipelineRoundTrip(d: Deployment, p: PipelineObject, status: PipelineStatus)
    requires Agrees(d, p)
    ensures CrToPipeline(p.labels, p.spec, status) ==
            d.(status := CrToPipeline(p.labels, p.spec, status).status, startedAt := status.startedAt,
               finishedAt := status.finishedAt)
    ensures OfClass(p, d.applicationID, d.prNumber.Some?)
  {
  }

  /** One more pipeline was created, for this record. */
  ghost predicate LogGrows(before: seq<Item>, after: seq<Item>, d: Deployment) {
    |after| == |before| + 1 && before <= after && after[|before|].key.name == d.id && Agrees(d, after[|before|].obj)
  }

  ghost predicate IsNewPipeline(apps: map<Key, Application>, d: Deployment, k: Key, after: Store, before: Store) {
    && k !in before && k in after && after == before[k := after[k]] && k.name == d.id && Agrees(d, after[k])
    && exists ak :: ak in apps && ak.namespace == k.namespace && ak.name == after[k].spec.applicationName
                    && apps[ak].labels.id == d.applicationID
  }
}
