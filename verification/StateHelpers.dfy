/** The operations on the in-memory current state, and what each of them leaves
    alone. */
module StateHelpers {
  import opened Text
  import opened Types

  function Filter(services: seq<Service>, s: nat): (r: seq<Service>)
    ensures forall x :: x in r <==> x in services && x.serviceId != s
  {
    if services == [] then []
    else if services[0].serviceId == s then Filter(services[1..], s)
    else [services[0]] + Filter(services[1..], s)
  }

  /** `removeServiceFromCurrentState`: an app left without services goes too. */
  function RemoveService(apps: Apps, a: nat, s: nat): Apps {
    if a in apps then
      var rest := Filter(apps[a].services, s);
      if rest == [] then apps - {a} else apps[a := apps[a].(services := rest)]
    else apps
  }

  /** `addServiceToCurrentState` */
  function AddService(apps: Apps, a: nat, service: Service, id: ContainerId): Apps {
    var app := if a in apps then apps[a] else App(a, service.appName, []);
    var added := service.(containerId := Some(id), status := Some(Up));
    apps[a := app.(services := app.services + [added])]
  }

  /** A change of the first service with the given id. */
  function ChangeFirst(services: seq<Service>, s: nat, change: Service -> Service): (r: seq<Service>)
    ensures |r| == |services|
  {
    if services == [] then []
    else if services[0].serviceId == s then [change(services[0])] + services[1..]
    else [services[0]] + ChangeFirst(services[1..], s, change)
  }

  function ChangeService(apps: Apps, a: nat, s: nat, change: Service -> Service): Apps {
    if a in apps then apps[a := apps[a].(services := ChangeFirst(apps[a].services, s, change))] else apps
  }

  /** `updateServiceState` */
  function UpdateState(apps: Apps, a: nat, s: nat, state: RunState): Apps {
    ChangeService(apps, a, s, (x: Service) => x.(state := Some(state)))
  }

  /** `markServiceAsRunning` */
  function MarkRunning(apps: Apps, a: nat, s: nat): Apps {
    ChangeService(apps, a, s, (x: Service) => x.(mark := Healthy))
  }

  datatype Who = ById(serviceId: nat) | ByImage(imageName: string)

  predicate Is(x: Service, who: Who) {
    match who
    case ById(s) => x.serviceId == s
    case ByImage(i) => x.imageName == i
  }

  function MarkFirst(services: seq<Service>, who: Who, kind: ErrorKind): (r: seq<Service>)
    ensures |r| == |services|
  {
    if services == [] then []
    else if Is(services[0], who) then [services[0].(mark := Failing(kind))] + services[1..]
    else [services[0]] + MarkFirst(services[1..], who, kind)
  }

  /** `markServiceAsError` on one of the two states. */
  function MarkError(apps: Apps, a: nat, who: Who, kind: ErrorKind): Apps {
    if a in apps then apps[a := apps[a].(services := MarkFirst(apps[a].services, who, kind))] else apps
  }

  // ---- What the operations change and what they do not ----

  /** Equal up to error marks. */
  ghost predicate SameButMarks(p: seq<Service>, q: seq<Service>) {
    |p| == |q| && forall i | 0 <= i < |p| :: Unmark(p[i]) == Unmark(q[i])
  }

  ghost predicate SameAppsButMarks(p: Apps, q: Apps) {
    && p.Keys == q.Keys
    && forall a | a in p :: p[a].appId == q[a].appId && p[a].appName == q[a].appName
                            && SameButMarks(p[a].services, q[a].services)
  }

  lemma {:induction false} FindSame(p: seq<Service>, q: seq<Service>, s: nat)
    requires SameButMarks(p, q)
    ensures Plain(FindFirst(p, s)) == Plain(FindFirst(q, s))
  {
    if p != [] {
      assert Unmark(p[0]) == Unmark(q[0]);
      assert forall i | 0 <= i < |p| - 1 :: p[1..][i] == p[i + 1] && q[1..][i] == q[i + 1];
      FindSame(p[1..], q[1..], s);
    }
  }

  lemma {:induction false} MarkFirstSame(services: seq<Service>, who: Who, kind: ErrorKind)
    ensures SameButMarks(MarkFirst(services, who, kind), services)
  {
    if services != [] && !Is(services[0], who) {
      MarkFirstSame(services[1..], who, kind);
    }
  }

  lemma MarkErrorSame(apps: Apps, a: nat, who: Who, kind: ErrorKind)
    ensures SameAppsButMarks(MarkError(apps, a, who, kind), apps)
  {
    if a in apps {
      MarkFirstSame(apps[a].services, who, kind);
    }
  }

  lemma LookupSame(p: Apps, q: Apps, a: nat, s: nat)
    requires SameAppsButMarks(p, q)
    ensures Plain(Lookup(p, a, s)) == Plain(Lookup(q, a, s))
  {
    if a in p {
      FindSame(p[a].services, q[a].services, s);
    }
  }

  lemma {:induction false} FindFilter(services: seq<Service>, s: nat, t: nat)
    ensures FindFirst(Filter(services, s), t) == if s == t then None else FindFirst(services, t)
  {
    if services != [] {
      FindFilter(services[1..], s, t);
      if services[0].serviceId != s {
        assert ([services[0]] + Filter(services[1..], s))[1..] == Filter(services[1..], s);
      }
    }
  }

  lemma LookupRemove(apps: Apps, a: nat, s: nat, b: nat, t: nat)
    ensures Lookup(RemoveService(apps, a, s), b, t) == if a == b && s == t then None else Lookup(apps, b, t)
  {
    if a in apps {
      FindFilter(apps[a].services, s, t);
    }
  }

  lemma {:induction false} FindAppend(services: seq<Service>, x: Service, t: nat)
    ensures FindFirst(services + [x], t) ==
            if FindFirst(services, t).Some? then FindFirst(services, t)
            else if x.serviceId == t then Some(x) else None
  {
    if services != [] {
      assert (services + [x])[1..] == services[1..] + [x];
      FindAppend(services[1..], x, t);
    }
  }

  lemma LookupAdd(apps: Apps, a: nat, service: Service, id: ContainerId, b: nat, t: nat)
    ensures Lookup(AddService(apps, a, service, id), b, t) ==
            if a == b && service.serviceId == t && Lookup(apps, b, t).None? then
              Some(service.(containerId := Some(id), status := Some(Up)))
            else Lookup(apps, b, t)
  {
    var added := service.(containerId := Some(id), status := Some(Up));
    FindAppend(if a in apps then apps[a].services else [], added, t);
  }

  lemma {:induction false} FindChange(services: seq<Service>, s: nat, change: Service -> Service, t: nat)
    requires forall x: Service :: change(x).serviceId == x.serviceId
    ensures FindFirst(ChangeFirst(services, s, change), t) ==
            match FindFirst(services, t)
            case Some(x) => if s == t then Some(change(x)) else Some(x)
            case None => None
  {
    if services != [] {
      FindChange(services[1..], s, change, t);
      if services[0].serviceId != s {
        assert ([services[0]] + ChangeFirst(services[1..], s, change))[1..] == ChangeFirst(services[1..], s, change);
      } else {
        assert ([change(services[0])] + services[1..])[1..] == services[1..];
      }
    }
  }

  /** Changing one service leaves every other lookup as it was. */
  lemma LookupChange(apps: Apps, a: nat, s: nat, change: Service -> Service, b: nat, t: nat)
    requires forall x: Service :: change(x).serviceId == x.serviceId
    ensures Lookup(ChangeService(apps, a, s, change), b, t) ==
            match Lookup(apps, b, t)
            case Some(x) => if a == b && s == t then Some(change(x)) else Some(x)
            case None => None
  {
    if a in apps {
      FindChange(apps[a].services, s, change, t);
    }
  }
}
