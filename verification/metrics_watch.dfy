/** From a custom-metrics ConfigMap to the clusters to reconcile, by index or by filtered list. */
module MetricsWatch {
  import opened AppTypes
  import opened Sequences

  // A cluster with the ConfigMap names its monitoring spec refers to, if it has one.
  datatype Cluster = Cluster(name: string, monitoring: Option<seq<string>>)

  datatype Contribution = Contribution(present: bool, refs: seq<string>)

  datatype Publication = Publication(observedGeneration: int, contributions: seq<Contribution>)

  datatype Database = Database(clusterRef: string, generation: int, publication: Option<Publication>)

  datatype Owner = PostgresOwner(name: string) | CnpgOwner(name: string) | OtherOwner

  datatype ConfigMap = ConfigMap(name: string, owner: Option<Owner>)

  predicate NoDuplicates(s: seq<string>) {
    forall i, j :: 0 <= i < j < |s| ==> s[i] != s[j]
  }

  function Elements<T>(s: seq<T>): set<T> {
    set x | x in s
  }

  /******* Extractors *******/

  /** The distinct nonempty names, in order of first occurrence. */
  method DistinctNames(refs: seq<string>) returns (names: seq<string>)
    ensures NoDuplicates(names) && Elements(names) == Elements(refs) - {""}
    ensures forall i, j :: 0 <= i < j < |names| ==> FirstIndex(refs, names[i]) < FirstIndex(refs, names[j])
  {
    hide FirstIndex, Elements;
    var seen: set<string> := {};
    names := [];
    NoElements();
    for i := 0 to |refs|
      invariant seen == Elements(names) == Elements(refs[..i]) - {""} && NoDuplicates(names)
      invariant forall a, b :: 0 <= a < b < |names| ==> FirstIndex(refs, names[a]) < FirstIndex(refs, names[b])
      invariant forall a :: 0 <= a < |names| ==> FirstIndex(refs, names[a]) < i
    {
      var ref := refs[i];
      assert refs[..i + 1] == refs[..i] + [ref];
      ElementsAppend(refs[..i], ref);
      if ref != "" && ref !in seen {
        FirstSeen(refs, ref, i);
        ElementsAppend(names, ref);
        seen, names := seen + {ref}, names + [ref];
      }
    }
    assert refs[..|refs|] == refs;
  }

  lemma FirstSeen(refs: seq<string>, ref: string, i: nat)
    requires i < |refs| && refs[i] == ref && ref !in Elements(refs[..i])
    ensures FirstIndex(refs, ref) == i
  {
    FirstAt(refs, ref, i);
  }

  lemma ElementsAppend(s: seq<string>, x: string)
    ensures Elements(s + [x]) == Elements(s) + {x}
    ensures x in Elements(s) <==> x in s
  {
  }

  lemma NoElements()
    ensures Elements<string>([]) == {}
  {
  }

  function ClusterRefs(c: Cluster): seq<string> {
    match c.monitoring
    case None => []
    case Some(refs) => refs
  }

  function Contributed(cs: seq<Contribution>): seq<string> {
    if cs == [] then []
    else Contributed(cs[..|cs| - 1]) + (if cs[|cs| - 1].present then cs[|cs| - 1].refs else [])
  }

  /** A publication counts only for the generation it was computed from. */
  function DatabaseRefs(d: Database): seq<string> {
    match d.publication
    case None => []
    case Some(p) => if p.observedGeneration != d.generation then [] else Contributed(p.contributions)
  }

  /** A nonempty name that a present contribution lists, in a publication for the current generation. */
  predicate Publishes(d: Database, name: string) {
    && name != "" && d.publication.Some? && d.publication.value.observedGeneration == d.generation
    && exists i :: 0 <= i < |d.publication.value.contributions|
         && d.publication.value.contributions[i].present && name in d.publication.value.contributions[i].refs
  }

  method ClusterNames(c: Cluster) returns (names: seq<string>)
    ensures NoDuplicates(names) && Elements(names) == Elements(ClusterRefs(c)) - {""}
    ensures forall name :: name in names <==> name != "" && c.monitoring.Some? && name in c.monitoring.value
  {
    if c.monitoring.None? { return []; }
    names := DistinctNames(c.monitoring.value);
    forall name ensures name in names <==> name != "" && name in c.monitoring.value {
      MatchesByName(names, c.monitoring.value, name);
    }
  }

  method DatabaseNames(d: Database) returns (names: seq<string>)
    ensures NoDuplicates(names) && Elements(names) == Elements(DatabaseRefs(d)) - {""}
    ensures forall name :: name in names <==> Publishes(d, name)
  {
    if d.publication.None? || d.publication.value.observedGeneration != d.generation { return []; }
    var refs, cs := [], d.publication.value.contributions;
    for i := 0 to |cs|
      invariant refs == Contributed(cs[..i])
    {
      assert cs[..i + 1][..i] == cs[..i];
      if cs[i].present { refs := refs + cs[i].refs; }
    }
    assert cs[..|cs|] == cs;
    names := DistinctNames(refs);
    forall name ensures name in names <==> Publishes(d, name) {
      MatchesByName(names, refs, name);
      ContributedExactly(cs, name);
    }
  }

  /** A name is contributed exactly if some contribution that is present lists it. */
  lemma {:induction false} ContributedExactly(cs: seq<Contribution>, name: string)
    ensures name in Contributed(cs) <==> exists i :: 0 <= i < |cs| && cs[i].present && name in cs[i].refs
  {
    if cs == [] {
    } else {
      var k := |cs| - 1;
      ContributedExactly(cs[..k], name);
      if i :| 0 <= i < |cs| && cs[i].present && name in cs[i].refs {
        if i < k { assert cs[..k][i] == cs[i]; }
      }
      if i :| 0 <= i < k && cs[..k][i].present && name in cs[..k][i].refs { assert cs[i] == cs[..k][i]; }
    }
  }

  /** What the index holds for a ConfigMap name: the objects whose extractor yields it. */
  predicate ClusterMatches(c: Cluster, name: string) {
    name != "" && name in ClusterRefs(c)
  }

  predicate DatabaseMatches(d: Database, name: string) {
    name != "" && name in DatabaseRefs(d)
  }

  lemma MatchesByName(names: seq<string>, refs: seq<string>, name: string)
    requires Elements(names) == Elements(refs) - {""}
    ensures name in names <==> name != "" && name in refs
  {
    assert name in names <==> name in Elements(names);
    assert name in refs <==> name in Elements(refs);
  }

  /******* The fallback filter, in place *******/

  function MatchingClusters(cs: seq<Cluster>, name: string): seq<Cluster> {
    if cs == [] then []
    else
      var k := |cs| - 1;
      MatchingClusters(cs[..k], name) + (if ClusterMatches(cs[k], name) then [cs[k]] else [])
  }

  function MatchingDatabases(ds: seq<Database>, name: string): seq<Database> {
    if ds == [] then []
    else
      var k := |ds| - 1;
      MatchingDatabases(ds[..k], name) + (if DatabaseMatches(ds[k], name) then [ds[k]] else [])
  }

  /** Keeps the matching clusters at the front of the same array. */
  method FilterClusters(items: array<Cluster>, name: string) returns (n: nat)
    modifies items
    ensures n <= items.Length && items[..n] == MatchingClusters(old(items[..]), name)
  {
    ghost var all := items[..];
    n := 0;
    for i := 0 to items.Length
      invariant n <= i && items[..n] == MatchingClusters(all[..i], name)
      invariant forall k :: i <= k < items.Length ==> items[k] == all[k]
    {
      assert all[..i + 1][..i] == all[..i];
      var names := ClusterNames(items[i]);
      MatchesByName(names, ClusterRefs(items[i]), name);
      if name in names {
        items[n] := items[i];
        n := n + 1;
      }
    }
    assert all[..items.Length] == all;
  }

  method FilterDatabases(items: array<Database>, name: string) returns (n: nat)
    modifies items
    ensures n <= items.Length && items[..n] == MatchingDatabases(old(items[..]), name)
  {
    ghost var all := items[..];
    n := 0;
    for i := 0 to items.Length
      invariant n <= i && items[..n] == MatchingDatabases(all[..i], name)
      invariant forall k :: i <= k < items.Length ==> items[k] == all[k]
    {
      assert all[..i + 1][..i] == all[..i];
      var names := DatabaseNames(items[i]);
      MatchesByName(names, DatabaseRefs(items[i]), name);
      if name in names {
        items[n] := items[i];
        n := n + 1;
      }
    }
    assert all[..items.Length] == all;
  }

  lemma {:induction false} MatchingClustersExactly(cs: seq<Cluster>, name: string, c: Cluster)
    ensures c in MatchingClusters(cs, name) <==> c in cs && ClusterMatches(c, name)
  {
    if cs == [] {
    } else {
      var k := |cs| - 1;
      MatchingClustersExactly(cs[..k], name, c);
      assert cs == cs[..k] + [cs[k]];
    }
  }

  lemma {:induction false} MatchingDatabasesExactly(ds: seq<Database>, name: string, d: Database)
    ensures d in MatchingDatabases(ds, name) <==> d in ds && DatabaseMatches(d, name)
  {
    if ds == [] {
    } else {
      var k := |ds| - 1;
      MatchingDatabasesExactly(ds[..k], name, d);
      assert ds == ds[..k] + [ds[k]];
    }
  }

  /******* The mapper *******/

  const SUFFIX := "-metrics"

  /** The cluster a generated ConfigMap belongs to. */
  function GeneratedFor(name: string): Option<string> {
    var n := |name| - |SUFFIX|;
    if n > 0 && name[n..] == SUFFIX then Some(name[..n]) else None
  }

  function Seeds(cm: ConfigMap): set<string> {
    match GeneratedFor(cm.name)
    case Some(cluster) => {cluster}
    case None =>
      match cm.owner
      case Some(PostgresOwner(n)) => {n}
      case Some(CnpgOwner(n)) => {n}
      case _ => {}
  }

  /** A generated ConfigMap is named after its cluster. */
  lemma GeneratedExactly(name: string, cluster: string)
    ensures GeneratedFor(name) == Some(cluster) <==> cluster != "" && name == cluster + "-metrics"
  {
    var n := |name| - |SUFFIX|;
    if n > 0 && name[n..] == SUFFIX { assert name == name[..n] + name[n..]; }
    if name == cluster + SUFFIX { assert name[n..] == SUFFIX && name[..n] == cluster; }
  }

  /** A ConfigMap brings up the cluster it is generated for, or else the cluster that owns it. */
  lemma SeedsExactly(cm: ConfigMap, cluster: string)
    ensures cluster in Seeds(cm) <==>
      || (cluster != "" && cm.name == cluster + "-metrics")
      || ((forall c :: c != "" ==> cm.name != c + "-metrics")
          && (cm.owner == Some(PostgresOwner(cluster)) || cm.owner == Some(CnpgOwner(cluster))))
  {
    GeneratedExactly(cm.name, cluster);
    match GeneratedFor(cm.name)
    case Some(c) => GeneratedExactly(cm.name, c);
    case None => forall c | c != "" ensures cm.name != c + "-metrics" { GeneratedExactly(cm.name, c); }
  }

  /** The clusters that refer to the ConfigMap themselves, and those of the databases that do. */
  function ByCluster(cs: seq<Cluster>, name: string): set<string> {
    set c | c in cs && ClusterMatches(c, name) :: c.name
  }

  function ByDatabase(ds: seq<Database>, name: string): set<string> {
    set d | d in ds && DatabaseMatches(d, name) && d.clusterRef != "" :: d.clusterRef
  }

  /** The API objects that bring a cluster up: itself, by a name its monitoring lists, or a database of it that publishes one. */
  lemma WantedExactly(cs: seq<Cluster>, ds: seq<Database>, name: string, cluster: string)
    ensures cluster in ByCluster(cs, name) <==>
      name != "" && exists i :: 0 <= i < |cs| && cs[i].name == cluster && cs[i].monitoring.Some? && name in cs[i].monitoring.value
    ensures cluster in ByDatabase(ds, name) <==>
      cluster != "" && exists i :: 0 <= i < |ds| && ds[i].clusterRef == cluster && Publishes(ds[i], name)
  {
    forall d | d in ds ensures DatabaseMatches(d, name) <==> Publishes(d, name) {
      if d.publication.Some? { ContributedExactly(d.publication.value.contributions, name); }
    }
  }

  class Requests {
    var seen: set<string>
    var requests: seq<string>

    ghost predicate Valid() reads this {
      NoDuplicates(requests) && seen == Elements(requests)
    }

    constructor ()
      ensures Valid() && Elements(requests) == {}
    {
      seen, requests := {}, [];
    }

    method Enqueue(name: string)
      requires Valid()
      modifies this
      ensures Valid() && Elements(requests) == Elements(old(requests)) + {name} && old(requests) <= requests
    {
      if name !in seen {
        assert Elements(requests + [name]) == Elements(requests) + {name};
        seen, requests := seen + {name}, requests + [name];
      }
    }
  }

  // The answers of the API server. A lookup or list that fails is None; otherwise the index returns the matching objects
  // of the namespace and the list returns all of them, in some order.
  ghost predicate Answers<T(!new)>(all: seq<T>, matching: seq<T>, indexed: Option<seq<T>>, listed: Option<seq<T>>) {
    && (indexed.Some? ==> multiset(indexed.value) == multiset(matching))
    && (listed.Some? ==> multiset(listed.value) == multiset(all))
  }

  lemma SameMembers<T(!new)>(a: seq<T>, b: seq<T>, x: T)
    requires multiset(a) == multiset(b)
    ensures x in a <==> x in b
  {
    assert x in a <==> x in multiset(a);
    assert x in b <==> x in multiset(b);
  }

  method FindClusters(name: string, indexed: Option<seq<Cluster>>, listed: Option<seq<Cluster>>, ghost all: seq<Cluster>)
      returns (found: seq<Cluster>)
    requires Answers(all, MatchingClusters(all, name), indexed, listed)
    ensures indexed.None? && listed.None? ==> found == []
    ensures indexed.Some? || listed.Some? ==> forall c :: c in found <==> c in all && ClusterMatches(c, name)
  {
    if indexed.Some? {
      found := indexed.value;
      forall c ensures c in found <==> c in all && ClusterMatches(c, name) {
        SameMembers(found, MatchingClusters(all, name), c);
        MatchingClustersExactly(all, name, c);
      }
    } else if listed.None? {
      found := [];
    } else {
      var items := new Cluster[|listed.value|](i requires 0 <= i < |listed.value| => listed.value[i]);
      assert items[..] == listed.value;
      var n := FilterClusters(items, name);
      found := items[..n];
      forall c ensures c in found <==> c in all && ClusterMatches(c, name) {
        MatchingClustersExactly(listed.value, name, c);
        SameMembers(listed.value, all, c);
      }
    }
  }

  method FindDatabases(name: string, indexed: Option<seq<Database>>, listed: Option<seq<Database>>, ghost all: seq<Database>)
      returns (found: seq<Database>)
    requires Answers(all, MatchingDatabases(all, name), indexed, listed)
    ensures indexed.None? && listed.None? ==> found == []
    ensures indexed.Some? || listed.Some? ==> forall d :: d in found <==> d in all && DatabaseMatches(d, name)
  {
    if indexed.Some? {
      found := indexed.value;
      forall d ensures d in found <==> d in all && DatabaseMatches(d, name) {
        SameMembers(found, MatchingDatabases(all, name), d);
        MatchingDatabasesExactly(all, name, d);
      }
    } else if listed.None? {
      found := [];
    } else {
      var items := new Database[|listed.value|](i requires 0 <= i < |listed.value| => listed.value[i]);
      assert items[..] == listed.value;
      var n := FilterDatabases(items, name);
      found := items[..n];
      forall d ensures d in found <==> d in all && DatabaseMatches(d, name) {
        MatchingDatabasesExactly(listed.value, name, d);
        SameMembers(listed.value, all, d);
      }
    }
  }

  /** The clusters to reconcile for a ConfigMap: each once, and the same set whichever indexed lookups fail, as long as
      the list that replaces a failed one succeeds. */
  method ClustersFor(cm: ConfigMap, connected: bool, ghost clusters: seq<Cluster>, ghost databases: seq<Database>,
                     clusterIndex: Option<seq<Cluster>>, clusterList: Option<seq<Cluster>>,
                     databaseIndex: Option<seq<Database>>, databaseList: Option<seq<Database>>) returns (requests: seq<string>)
    requires Answers(clusters, MatchingClusters(clusters, cm.name), clusterIndex, clusterList)
    requires Answers(databases, MatchingDatabases(databases, cm.name), databaseIndex, databaseList)
    ensures NoDuplicates(requests)
    ensures Elements(requests) == Seeds(cm)
      + (if connected && (clusterIndex.Some? || clusterList.Some?) then ByCluster(clusters, cm.name) else {})
      + (if connected && (databaseIndex.Some? || databaseList.Some?) then ByDatabase(databases, cm.name) else {})
  {
    var out := new Requests();
    EnqueueSeeds(out, cm);
    if !connected { return out.requests; }
    var cs := FindClusters(cm.name, clusterIndex, clusterList, clusters);
    EnqueueClusters(out, cs);
    assert NamesOf(cs) == if clusterIndex.Some? || clusterList.Some? then ByCluster(clusters, cm.name) else {};
    var ds := FindDatabases(cm.name, databaseIndex, databaseList, databases);
    EnqueueDatabases(out, ds);
    assert TargetsOf(ds) == if databaseIndex.Some? || databaseList.Some? then ByDatabase(databases, cm.name) else {};
    hide NamesOf, TargetsOf, ByCluster, ByDatabase, Seeds;
    return out.requests;
  }

  method EnqueueSeeds(out: Requests, cm: ConfigMap)
    requires out.Valid() && Elements(out.requests) == {}
    modifies out
    ensures out.Valid() && Elements(out.requests) == Seeds(cm)
  {
    var generated := GeneratedFor(cm.name);
    if cm.owner.Some? && generated.None? {
      if cm.owner.value.PostgresOwner? { out.Enqueue(cm.owner.value.name); }
      if cm.owner.value.CnpgOwner? { out.Enqueue(cm.owner.value.name); }
    }
    if generated.Some? { out.Enqueue(generated.value); }
  }

  method EnqueueClusters(out: Requests, cs: seq<Cluster>)
    requires out.Valid()
    modifies out
    ensures out.Valid() && Elements(out.requests) == Elements(old(out.requests)) + NamesOf(cs)
  {
    for i := 0 to |cs|
      invariant out.Valid() && Elements(out.requests) == Elements(old(out.requests)) + NamesOf(cs[..i])
    {
      NamesNext(cs, i);
      out.Enqueue(cs[i].name);
    }
    assert cs[..|cs|] == cs;
  }

  method EnqueueDatabases(out: Requests, ds: seq<Database>)
    requires out.Valid()
    modifies out
    ensures out.Valid() && Elements(out.requests) == Elements(old(out.requests)) + TargetsOf(ds)
  {
    for i := 0 to |ds|
      invariant out.Valid() && Elements(out.requests) == Elements(old(out.requests)) + TargetsOf(ds[..i])
    {
      TargetsNext(ds, i);
      if ds[i].clusterRef != "" { out.Enqueue(ds[i].clusterRef); }
    }
    assert ds[..|ds|] == ds;
  }

  function NamesOf(cs: seq<Cluster>): set<string> {
    set c | c in cs :: c.name
  }

  function TargetsOf(ds: seq<Database>): set<string> {
    set d | d in ds && d.clusterRef != "" :: d.clusterRef
  }

  lemma NamesNext(cs: seq<Cluster>, i: nat)
    requires i < |cs|
    ensures NamesOf(cs[..i + 1]) == NamesOf(cs[..i]) + {cs[i].name}
  {
    assert cs[..i + 1] == cs[..i] + [cs[i]];
  }

  lemma TargetsNext(ds: seq<Database>, i: nat)
    requires i < |ds|
    ensures TargetsOf(ds[..i + 1]) == TargetsOf(ds[..i]) + (if ds[i].clusterRef != "" then {ds[i].clusterRef} else {})
  {
    assert ds[..i + 1] == ds[..i] + [ds[i]];
  }
}
