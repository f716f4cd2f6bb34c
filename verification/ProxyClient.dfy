/** The client of gdbus/client.c: a list of proxies with property tables, updated in place by the
    message handlers. Each handler does to the list what the model says an observer learns. */
module ProxyClient {
  import opened Lists
  import opened Paths
  import opened DBusValues
  import opened ObjectModel
  import opened Observers

  // ---- proxy lists on values ----

  datatype ProxyView = ProxyView(path: Path, iface: string, props: PropTable)

  ghost predicate Distinct(ps: seq<ProxyView>) {
    forall i, j :: 0 <= i < j < |ps| ==> ps[i].path != ps[j].path || ps[i].iface != ps[j].iface
  }

  function Find(ps: seq<ProxyView>, path: Path, iface: string): (k: nat)
    ensures k <= |ps|
    ensures k < |ps| ==> ps[k].path == path && ps[k].iface == iface
    ensures forall j :: 0 <= j < k ==> ps[j].path != path || ps[j].iface != iface
  {
    if ps == [] then 0
    else if ps[0].path == path && ps[0].iface == iface then 0
    else 1 + Find(ps[1..], path, iface)
  }

  /** The proxies of one path as an observer's view. */
  function At(ps: seq<ProxyView>, p: Path): PathView {
    if ps == [] then map[]
    else
      var rest := At(ps[1..], p);
      if ps[0].path == p then rest[ps[0].iface := ps[0].props] else rest
  }

  /** The view has exactly the listed interfaces of the path, each with its proxy's table. */
  lemma {:induction false} AtSpec(ps: seq<ProxyView>, p: Path, n: string)
    ensures n in At(ps, p) <==> Find(ps, p, n) < |ps|
    ensures n in At(ps, p) ==> At(ps, p)[n] == ps[Find(ps, p, n)].props
  {
    if ps != [] { AtSpec(ps[1..], p, n); }
  }

  lemma FindAt(ps: seq<ProxyView>, k: nat)
    requires Distinct(ps) && k < |ps|
    ensures Find(ps, ps[k].path, ps[k].iface) == k
  {
    var j := Find(ps, ps[k].path, ps[k].iface);
    assert j <= k;
  }

  lemma SameViews(a: PathView, b: PathView)
    requires forall n :: (n in a <==> n in b) && (n in a ==> a[n] == b[n])
    ensures a == b
  {
  }

  lemma UpdateAt(ps: seq<ProxyView>, k: nat, t: PropTable, q: Path)
    requires Distinct(ps) && k < |ps|
    ensures var ps' := ps[k := ps[k].(props := t)];
      Distinct(ps') && At(ps', q) == if q == ps[k].path then At(ps, q)[ps[k].iface := t] else At(ps, q)
  {
    var ps' := ps[k := ps[k].(props := t)];
    var v := if q == ps[k].path then At(ps, q)[ps[k].iface := t] else At(ps, q);
    forall n ensures (n in At(ps', q) <==> n in v) && (n in v ==> At(ps', q)[n] == v[n]) {
      AtSpec(ps, q, n);
      AtSpec(ps', q, n);
      FindAt(ps, k);
      SameFind(ps, ps', q, n);
    }
    SameViews(At(ps', q), v);
  }

  lemma SameFind(a: seq<ProxyView>, b: seq<ProxyView>, p: Path, n: string)
    requires |a| == |b| && forall k :: 0 <= k < |a| ==> a[k].path == b[k].path && a[k].iface == b[k].iface
    ensures Find(a, p, n) == Find(b, p, n)
  {
    var i, j := Find(a, p, n), Find(b, p, n);
    assert i < |a| ==> b[i].path == p && b[i].iface == n;
    assert j < |b| ==> a[j].path == p && a[j].iface == n;
  }

  lemma {:induction false} AppendAt(ps: seq<ProxyView>, x: ProxyView, q: Path)
    requires Find(ps, x.path, x.iface) == |ps|
    ensures At(ps + [x], q) == if q == x.path then At(ps, q)[x.iface := x.props] else At(ps, q)
  {
    if ps == [] {
      assert ps + [x] == [x] && [x][1..] == [];
    } else {
      assert (ps + [x])[1..] == ps[1..] + [x];
      AppendAt(ps[1..], x, q);
    }
  }

  lemma DeleteAt(ps: seq<ProxyView>, k: nat, q: Path)
    requires Distinct(ps) && k < |ps|
    ensures var ps' := ps[..k] + ps[k + 1..];
      Distinct(ps') && At(ps', q) == if q == ps[k].path then At(ps, q) - {ps[k].iface} else At(ps, q)
  {
    var ps' := ps[..k] + ps[k + 1..];
    var v := if q == ps[k].path then At(ps, q) - {ps[k].iface} else At(ps, q);
    forall n ensures (n in At(ps', q) <==> n in v) && (n in v ==> At(ps', q)[n] == v[n]) {
      AtSpec(ps, q, n);
      AtSpec(ps', q, n);
      DeleteFind(ps, k, q, n);
    }
    SameViews(At(ps', q), v);
  }

  lemma DeleteFind(ps: seq<ProxyView>, k: nat, q: Path, n: string)
    requires Distinct(ps) && k < |ps|
    ensures var ps' := ps[..k] + ps[k + 1..]; var j, j' := Find(ps, q, n), Find(ps', q, n);
      if q == ps[k].path && n == ps[k].iface then j' == |ps'|
      else if j == |ps| then j' == |ps'| else j' < |ps'| && ps'[j'] == ps[j]
  {
    var ps' := ps[..k] + ps[k + 1..];
    var j, j' := Find(ps, q, n), Find(ps', q, n);
    assert forall m :: 0 <= m < |ps'| ==> ps'[m] == ps[if m < k then m else m + 1];
    if j < |ps| && j != k {
      var m := if j < k then j else j - 1;
      assert ps'[m] == ps[j];
      assert j' <= m;
    }
  }

  // ---- the objects ----

  /** `struct GDBusProxy`; the property table maps names to the values last received. */
  class GDBusProxy {
    const objPath: Path
    const iface: string
    var propList: PropTable

    constructor (path: Path, iface: string)
      ensures objPath == path && this.iface == iface && propList == map[]
    {
      objPath, this.iface, propList := path, iface, map[];
    }

    function View(): ProxyView
      reads this
    {
      ProxyView(objPath, iface, propList)
    }

    /** `update_properties`: `add_property` for each entry. */
    method UpdateProperties(es: seq<Entry>)
      modifies this
      ensures propList == Learn(old(propList), es)
    {
      var k := 0;
      while k < |es|
        invariant k <= |es|
        invariant Learn(propList, es[k..]) == Learn(old(propList), es)
      {
        assert es[k..][0] == es[k] && es[k..][1..] == es[k + 1..];
        propList := propList[es[k].key := es[k].value];
        k := k + 1;
      }
      assert es[k..] == [];
    }

    /** The second loop of `properties_changed`. */
    method Invalidate(names: seq<string>)
      modifies this
      ensures propList == old(propList) - ToSet(names)
    {
      var k := 0;
      while k < |names|
        invariant k <= |names|
        invariant propList == old(propList) - ToSet(names[..k])
      {
        assert names[..k + 1] == names[..k] + [names[k]];
        propList := propList - {names[k]};
        k := k + 1;
      }
      assert names[..k] == names;
    }
  }

  ghost function Contents(ps: seq<GDBusProxy>): (r: seq<ProxyView>)
    reads ps
    ensures |r| == |ps| && forall k :: 0 <= k < |ps| ==> r[k] == ps[k].View()
  {
    seq(|ps|, k requires 0 <= k < |ps| reads ps => ps[k].View())
  }

  /** `struct GDBusClient`. */
  class GDBusClient {
    var proxyList: seq<GDBusProxy>

    constructor ()
      ensures proxyList == [] && Valid()
    {
      proxyList := [];
    }

    /** At most one proxy per path and interface. */
    ghost predicate Valid()
      reads this, proxyList
    {
      Distinct(Contents(proxyList))
    }

    ghost function View(p: Path): PathView
      reads this, proxyList
    {
      At(Contents(proxyList), p)
    }

    /** `proxy_lookup`. */
    method ProxyLookup(path: Path, iface: string) returns (k: nat)
      ensures k == Find(Contents(proxyList), path, iface)
    {
      k := 0;
      while k < |proxyList|
        invariant k <= |proxyList|
        invariant forall j :: 0 <= j < k ==> proxyList[j].objPath != path || proxyList[j].iface != iface
      {
        if proxyList[k].iface == iface && proxyList[k].objPath == path { break; }
        k := k + 1;
      }
    }

    /** The branch of `parse_properties` that finds a proxy. */
    method UpdateProxy(k: nat, es: seq<Entry>)
      requires Valid() && k < |proxyList|
      modifies proxyList[k]
      ensures Contents(proxyList) == old(Contents(proxyList))[k := old(proxyList[k].View()).(props := Learn(old(proxyList[k].propList), es))]
    {
      ghost var ps := Contents(proxyList);
      forall j | 0 <= j < |proxyList| && j != k ensures proxyList[j] != proxyList[k] {
        assert ps[j] != ps[k];
      }
      proxyList[k].UpdateProperties(es);
    }

    /** The branch of `parse_properties` that makes a proxy. */
    method NewProxy(path: Path, iface: string, es: seq<Entry>)
      modifies this
      ensures Contents(proxyList) == old(Contents(proxyList)) + [ProxyView(path, iface, Learn(map[], es))]
      ensures forall j :: 0 <= j < |proxyList| ==> proxyList[j] in old(proxyList) || fresh(proxyList[j])
    {
      var x := new GDBusProxy(path, iface);
      x.UpdateProperties(es);
      proxyList := proxyList + [x];
    }

    /** `parse_properties`. */
    method ParseProperties(path: Path, iface: string, es: seq<Entry>)
      requires Valid()
      modifies this, proxyList
      ensures Valid() && forall j :: 0 <= j < |proxyList| ==> proxyList[j] in old(proxyList) || fresh(proxyList[j])
      ensures forall q :: View(q) == if q == path then HearIface(true, old(View(q)), IfaceEntry(iface, es)) else old(View(q))
    {
      if iface == INTROSPECTABLE { return; }
      if iface == PROPERTIES { return; }
      ghost var ps := Contents(proxyList);
      var k := ProxyLookup(path, iface);
      AtSpec(ps, path, iface);
      if k < |proxyList| {
        UpdateProxy(k, es);
        forall q { UpdateAt(ps, k, Learn(ps[k].props, es), q); }
      } else {
        NewProxy(path, iface, es);
        forall q { AppendAt(ps, ProxyView(path, iface, Learn(map[], es)), q); }
      }
    }

    /** `parse_interfaces`. */
    method ParseInterfaces(path: Path, es: seq<IfaceEntry>)
      requires Valid()
      modifies this, proxyList
      ensures Valid() && forall j :: 0 <= j < |proxyList| ==> proxyList[j] in old(proxyList) || fresh(proxyList[j])
      ensures forall q :: View(q) == if q == path then HearIfaces(true, old(View(q)), es) else old(View(q))
    {
      var k := 0;
      while k < |es|
        invariant k <= |es| && Valid() && forall j :: 0 <= j < |proxyList| ==> proxyList[j] in old(proxyList) || fresh(proxyList[j])
        invariant HearIfaces(true, View(path), es[k..]) == HearIfaces(true, old(View(path)), es)
        invariant forall q :: q != path ==> View(q) == old(View(q))
      {
        assert es[k..][0] == es[k] && es[k..][1..] == es[k + 1..];
        ParseProperties(path, es[k].name, es[k].props);
        k := k + 1;
      }
      assert es[k..] == [];
    }

    /** `proxy_remove`. */
    method ProxyRemove(path: Path, iface: string)
      requires Valid()
      modifies this
      ensures Valid() && forall j :: 0 <= j < |proxyList| ==> proxyList[j] in old(proxyList) || fresh(proxyList[j])
      ensures forall q :: View(q) == if q == path then old(View(q)) - {iface} else old(View(q))
    {
      ghost var ps := Contents(proxyList);
      var k := ProxyLookup(path, iface);
      AtSpec(ps, path, iface);
      if k < |proxyList| {
        proxyList := proxyList[..k] + proxyList[k + 1..];
        assert Contents(proxyList) == ps[..k] + ps[k + 1..];
        forall q { DeleteAt(ps, k, q); }
      }
    }

    /** `interfaces_removed`. */
    method InterfacesRemoved(path: Path, names: seq<string>)
      requires Valid()
      modifies this
      ensures Valid() && forall j :: 0 <= j < |proxyList| ==> proxyList[j] in old(proxyList) || fresh(proxyList[j])
      ensures forall q :: View(q) == if q == path then old(View(q)) - ToSet(names) else old(View(q))
    {
      var k := 0;
      while k < |names|
        invariant k <= |names| && Valid() && forall j :: 0 <= j < |proxyList| ==> proxyList[j] in old(proxyList) || fresh(proxyList[j])
        invariant forall q :: View(q) == if q == path then old(View(q)) - ToSet(names[..k]) else old(View(q))
      {
        assert names[..k + 1] == names[..k] + [names[k]];
        ProxyRemove(path, names[k]);
        k := k + 1;
      }
      assert names[..k] == names;
    }

    /** `properties_changed`, run for the proxy whose watch matches path and interface. */
    method PropertiesChanged(path: Path, iface: string, changed: seq<Entry>, gone: seq<string>)
      requires Valid()
      modifies proxyList
      ensures Valid()
      ensures forall q :: View(q) == Hear(true, old(View(q)), q, Changed(path, iface, changed, gone))
    {
      ghost var ps := Contents(proxyList);
      var k := ProxyLookup(path, iface);
      AtSpec(ps, path, iface);
      if k < |proxyList| {
        ChangeProxy(k, changed, gone);
        forall q { UpdateAt(ps, k, Learn(ps[k].props, changed) - ToSet(gone), q); }
      }
    }

    method ChangeProxy(k: nat, changed: seq<Entry>, gone: seq<string>)
      requires Valid() && k < |proxyList|
      modifies proxyList[k]
      ensures var x := old(proxyList[k].View());
        Contents(proxyList) == old(Contents(proxyList))[k := x.(props := Learn(x.props, changed) - ToSet(gone))]
    {
      ghost var ps := Contents(proxyList);
      forall j | 0 <= j < |proxyList| && j != k ensures proxyList[j] != proxyList[k] {
        assert ps[j] != ps[k];
      }
      proxyList[k].UpdateProperties(changed);
      proxyList[k].Invalidate(gone);
    }

    /** `parse_managed_objects`. */
    method ParseManagedObjects(objs: seq<ObjEntry>)
      requires Valid()
      modifies this, proxyList
      ensures Valid() && forall j :: 0 <= j < |proxyList| ==> proxyList[j] in old(proxyList) || fresh(proxyList[j])
      ensures forall q :: View(q) == LearnObjects(old(View(q)), q, objs)
    {
      var k := 0;
      while k < |objs|
        invariant k <= |objs| && Valid() && forall j :: 0 <= j < |proxyList| ==> proxyList[j] in old(proxyList) || fresh(proxyList[j])
        invariant forall q :: LearnObjects(View(q), q, objs[k..]) == LearnObjects(old(View(q)), q, objs)
      {
        assert objs[k..][0] == objs[k] && objs[k..][1..] == objs[k + 1..];
        ParseInterfaces(objs[k].path, objs[k].ifaces);
        k := k + 1;
      }
      assert objs[k..] == [];
    }

    /** A message reaching a subscribed client changes its view of every path as the model says. */
    method Receive(m: Msg, ghost c: nat)
      requires Valid() && !m.Subscribed? && (m.ManagedObjects? ==> m.client == c)
      modifies this, proxyList
      ensures Valid()
      ensures forall q, synced :: ClientHear(ClientView(true, synced, old(View(q))), c, q, m).view == View(q)
    {
      match m
      case Added(p, es) => ParseInterfaces(p, es);
      case Removed(p, names) => InterfacesRemoved(p, names);
      case Changed(p, i, changed, gone) => PropertiesChanged(p, i, changed, gone);
      case ManagedObjects(_, objs) => ParseManagedObjects(objs);
      case Other =>
    }
  }
}
