/** Linking identities to existing Actors at startup: plan everything, then write
    (apps/quoky/src/actor-identity-provisioner.ts:24-129; packages/storage-sqlite/src/index.ts:196-228). */
module Provisioner {

  datatype Platform = Discord | Telegram | Jira | Github

  datatype Identity = Identity(platform: Platform, externalId: string)

  type Id = nat

  /** The Actors with their identities, and the identity index (one row per identity). */
  datatype Store = Store(actors: map<Id, seq<Identity>>, index: map<Identity, Id>)

  datatype Link = Link(identity: Identity, owner: Identity)

  /** `targets`: the Jira and GitHub identities of one entry, in that order. */
  datatype Mapping = Mapping(actor: Identity, targets: seq<Identity>)

  datatype Plan = Plan(identities: seq<Identity>, additions: seq<Identity>, targets: map<Platform, string>, created: bool)

  /** `created`: the planned new Actors by owner identity; `claimed`: the targets taken so far; `next`: a fresh Actor id. */
  datatype State = State(plans: map<Id, Plan>, created: map<Identity, Id>, claimed: map<Identity, Id>, next: Id)

  datatype Planned = Conflict | Planned(state: State)

  datatype Found = Nobody | Holder(id: Id)

  // ---------- The store ----------

  /** Each identity is held by exactly the Actor its index row names: no identity is on two Actors. */
  ghost predicate Consistent(s: Store) {
    forall i: Identity, id: Id :: (id in s.actors && i in s.actors[id]) <==> (i in s.index && s.index[i] == id)
  }

  /** An Actor's index rows are replaced; a row of another Actor is taken over. */
  function Save(s: Store, id: Id, identities: seq<Identity>): Store {
    Store(s.actors[id := identities],
          (map i | i in s.index && s.index[i] != id && i !in identities :: s.index[i]) + (map i | i in identities :: id))
  }

  lemma SaveConsistent(s: Store, id: Id, identities: seq<Identity>)
    requires Consistent(s) && forall i <- identities :: i in s.index ==> s.index[i] == id
    ensures Consistent(Save(s, id, identities))
  {
  }

  // ---------- Planning ----------

  function ActorOf(s: Store, st: State, i: Identity): Found {
    if i in s.index then Holder(s.index[i]) else if i in st.created then Holder(st.created[i]) else Nobody
  }

  function IdentitiesOf(s: Store, id: Id): seq<Identity> {
    if id in s.actors then s.actors[id] else []
  }

  function PlanOf(s: Store, st: State, id: Id): Plan {
    if id in st.plans then st.plans[id] else Plan(IdentitiesOf(s, id), [], map[], false)
  }

  function PlanLink(s: Store, st: State, l: Link): Planned {
    var owner := ActorOf(s, st, l.owner);
    if l.identity in s.index then
      if owner == Holder(s.index[l.identity]) then Planned(st) else Conflict
    else if owner.Holder? then
      var plan := PlanOf(s, st, owner.id);
      var added := if l.identity in plan.identities + plan.additions then plan else plan.(additions := plan.additions + [l.identity]);
      Planned(st.(plans := st.plans[owner.id := added]))
    else
      Planned(st.(plans := st.plans[st.next := Plan([l.owner], [l.identity], map[], true)],
                  created := st.created[l.owner := st.next], next := st.next + 1))
  }

  function PlanLinks(s: Store, links: seq<Link>, next: Id): Planned {
    if links == [] then Planned(State(map[], map[], map[], next))
    else
      match PlanLinks(s, links[..|links| - 1], next)
      case Conflict => Conflict
      case Planned(st) => PlanLink(s, st, links[|links| - 1])
  }

  predicate Other(identities: seq<Identity>, t: Identity) {
    exists i <- identities :: i.platform == t.platform && i.externalId != t.externalId
  }

  /** One Jira or GitHub identity for the Actor `id`, whose plan is `st.plans[id]`. */
  function PlanTarget(s: Store, st: State, id: Id, t: Identity): Planned
    requires id in st.plans
  {
    var plan := st.plans[id];
    if t.platform in plan.targets && plan.targets[t.platform] != t.externalId then Conflict
    else if Other(plan.identities, t) then Conflict
    else if t in st.claimed && st.claimed[t] != id then Conflict
    else if t in s.index && s.index[t] != id then Conflict
    else
      var next := plan.(targets := plan.targets[t.platform := t.externalId],
                        additions := if t in plan.identities || t in plan.additions then plan.additions else plan.additions + [t]);
      Planned(st.(plans := st.plans[id := next], claimed := st.claimed[t := id]))
  }

  function PlanTargets(s: Store, st: State, id: Id, ts: seq<Identity>): (r: Planned)
    requires id in st.plans
    ensures r.Planned? ==> id in r.state.plans
  {
    if ts == [] then Planned(st)
    else
      match PlanTargets(s, st, id, ts[..|ts| - 1])
      case Conflict => Conflict
      case Planned(mid) => PlanTarget(s, mid, id, ts[|ts| - 1])
  }

  function PlanMapping(s: Store, st: State, m: Mapping): Planned {
    match ActorOf(s, st, m.actor)
    case Nobody => Planned(st)
    case Holder(id) => PlanTargets(s, st.(plans := st.plans[id := PlanOf(s, st, id)]), id, m.targets)
  }

  function PlanAll(s: Store, links: seq<Link>, mappings: seq<Mapping>, next: Id): Planned {
    if mappings == [] then PlanLinks(s, links, next)
    else
      match PlanAll(s, links, mappings[..|mappings| - 1], next)
      case Conflict => Conflict
      case Planned(st) => PlanMapping(s, st, mappings[|mappings| - 1])
  }

  // ---------- What the configuration gives ----------

  predicate IsTarget(i: Identity) {
    i.platform.Jira? || i.platform.Github?
  }

  /** Links join chat identities, and a linked identity is no owner; mappings name an owner by a chat identity that no link
      adds, and only give Jira and GitHub identities. */
  ghost predicate Wired(links: seq<Link>, mappings: seq<Mapping>) {
    && (forall l <- links :: !IsTarget(l.identity) && !IsTarget(l.owner))
    && (forall l, k | l in links && k in links :: l.identity != k.owner)
    && (forall m <- mappings :: !IsTarget(m.actor) && forall t <- m.targets :: IsTarget(t))
    && (forall m, l | m in mappings && l in links :: m.actor != l.identity)
  }

  ghost predicate Fresh(s: Store, next: Id) {
    forall id <- s.actors :: id < next
  }

  // ---------- The planning invariant ----------

  ghost predicate PlanOk(s: Store, st: State, id: Id)
    requires id in st.plans
  {
    var p := st.plans[id];
    if p.created then
      id !in s.actors && id < st.next && |p.identities| == 1 && p.identities[0] in st.created && st.created[p.identities[0]] == id
    else id in s.actors && p.identities == s.actors[id]
  }

  ghost predicate AdditionOk(s: Store, st: State, links: seq<Link>, id: Id, t: Identity)
    requires id in st.plans
  {
    && t !in s.index && t !in st.created
    && (if IsTarget(t) then
          t in st.claimed && st.claimed[t] == id
          && t.platform in st.plans[id].targets && st.plans[id].targets[t.platform] == t.externalId
        else exists l <- links :: l.identity == t && ActorOf(s, st, l.owner) == Holder(id))
  }

  ghost predicate CreatedOk(s: Store, st: State, links: seq<Link>, o: Identity)
    requires o in st.created
  {
    var id := st.created[o];
    o !in s.index && (exists l <- links :: l.owner == o) && id in st.plans && st.plans[id].created && st.plans[id].identities == [o]
  }

  ghost predicate Good(s: Store, st: State, links: seq<Link>) {
    && Consistent(s) && Fresh(s, st.next)
    && (forall id <- st.plans :: PlanOk(s, st, id))
    && (forall id, t | id in st.plans && t in st.plans[id].additions :: AdditionOk(s, st, links, id, t))
    && (forall o <- st.created :: CreatedOk(s, st, links, o))
  }

  /** What later planning steps leave of a state. */
  ghost predicate Grows(a: State, b: State) {
    && (forall o <- a.created :: o in b.created && b.created[o] == a.created[o])
    && (forall t <- a.claimed :: t in b.claimed && b.claimed[t] == a.claimed[t])
    && (forall id <- a.plans :: id in b.plans && PlanGrows(a.plans[id], b.plans[id]))
  }

  ghost predicate PlanGrows(p: Plan, q: Plan) {
    && q.identities == p.identities && q.created == p.created
    && (forall t <- p.additions :: t in q.additions)
    && (forall f <- p.targets :: f in q.targets && q.targets[f] == p.targets[f])
  }

  lemma GrowsTransitive(a: State, b: State, c: State)
    requires Grows(a, b) && Grows(b, c)
    ensures Grows(a, c)
  {
  }

  lemma Unchanged(st: State)
    ensures Grows(st, st)
  {
  }

  lemma PlanStays(s: Store, st: State, next: State, id: Id)
    requires id in st.plans && PlanOk(s, st, id) && Grows(st, next) && st.next <= next.next
    ensures id in next.plans && PlanOk(s, next, id)
  {
  }

  lemma CreatedStays(s: Store, st: State, next: State, links: seq<Link>, o: Identity)
    requires o in st.created && CreatedOk(s, st, links, o) && Grows(st, next)
    ensures o in next.created && CreatedOk(s, next, links, o)
  {
  }

  lemma AdditionStays(s: Store, st: State, next: State, links: seq<Link>, id: Id, t: Identity)
    requires id in st.plans && AdditionOk(s, st, links, id, t) && Grows(st, next) && t !in next.created
    ensures id in next.plans && AdditionOk(s, next, links, id, t)
  {
    if !IsTarget(t) {
      var k :| k in links && k.identity == t && ActorOf(s, st, k.owner) == Holder(id);
      assert ActorOf(s, next, k.owner) == Holder(id);
    }
  }

  ghost predicate IsNew(st: State, id: Id, t: Identity) {
    id !in st.plans || t !in st.plans[id].additions
  }

  /** A step keeps the invariant when what it adds keeps it. */
  lemma Assemble(s: Store, st: State, next: State, links: seq<Link>)
    requires Good(s, st, links) && Grows(st, next) && st.next <= next.next
    requires forall o <- next.created :: o !in st.created ==> CreatedOk(s, next, links, o)
    requires forall id, t | id in st.plans && t in st.plans[id].additions :: t !in next.created
    requires forall id <- next.plans :: id !in st.plans ==> PlanOk(s, next, id)
    requires forall id, t | id in next.plans && t in next.plans[id].additions && IsNew(st, id, t) :: AdditionOk(s, next, links, id, t)
    ensures Good(s, next, links)
  {
    hide AdditionOk, CreatedOk, PlanOk, Consistent, Grows;
    forall o | o in next.created ensures CreatedOk(s, next, links, o) {
      if o in st.created {
        CreatedStays(s, st, next, links, o);
      }
    }
    forall id | id in next.plans ensures PlanOk(s, next, id) {
      if id in st.plans {
        PlanStays(s, st, next, id);
      }
    }
    forall id, t | id in next.plans && t in next.plans[id].additions ensures AdditionOk(s, next, links, id, t) {
      if !IsNew(st, id, t) {
        AdditionStays(s, st, next, links, id, t);
      }
    }
  }

  lemma FreshHere(s: Store, st: State, links: seq<Link>)
    requires Good(s, st, links)
    ensures st.next !in st.plans && st.next !in s.actors
  {
    assert st.next in st.plans ==> PlanOk(s, st, st.next);
  }

  /** An addition is no owner of a link. */
  lemma AdditionNoOwner(s: Store, st: State, links: seq<Link>, id: Id, t: Identity, l: Link)
    requires Wired(links, []) && Good(s, st, links) && id in st.plans && t in st.plans[id].additions && l in links
    ensures t != l.owner && t !in st.created
  {
    assert AdditionOk(s, st, links, id, t);
  }

  lemma IdentityNoOwner(s: Store, st: State, links: seq<Link>, l: Link)
    requires Wired(links, []) && l in links && forall o <- st.created :: CreatedOk(s, st, links, o)
    ensures l.identity !in st.created
  {
    assert l.identity in st.created ==> CreatedOk(s, st, links, l.identity);
  }

  // ---------- Links ----------

  /** A planned link: its identity and its owner are, or will be, on one Actor. */
  ghost predicate LinkPlanned(s: Store, st: State, l: Link) {
    var owner := ActorOf(s, st, l.owner);
    owner.Holder? &&
    if l.identity in s.index then s.index[l.identity] == owner.id
    else owner.id in st.plans && l.identity in st.plans[owner.id].additions
  }

  lemma HolderExists(s: Store, i: Identity)
    requires Consistent(s) && i in s.index
    ensures s.index[i] in s.actors && i in s.actors[s.index[i]]
  {
  }

  lemma NewOwner(s: Store, st: State, links: seq<Link>, l: Link)
    requires Wired(links, []) && l in links && Good(s, st, links)
    requires l.identity !in s.index && ActorOf(s, st, l.owner).Nobody?
    ensures var r := PlanLink(s, st, l); r.Planned? && Good(s, r.state, links) && Grows(st, r.state) && LinkPlanned(s, r.state, l)
  {
    hide AdditionOk, CreatedOk, Consistent, Wired, Good;
    FreshHere(s, st, links);
    var next := PlanLink(s, st, l).state;
    var id := st.next;
    assert next.plans == st.plans[id := Plan([l.owner], [l.identity], map[], true)] && next.created == st.created[l.owner := id];
    NewCreated(s, next, links, l, id);
    forall k, t | k in st.plans && t in st.plans[k].additions ensures t !in next.created {
      AdditionNoOwner(s, st, links, k, t, l);
    }
    AllCreated(s, st, links);
    NewAddition(s, st, next, links, l, id);
    Assemble(s, st, next, links);
  }

  lemma AllCreated(s: Store, st: State, links: seq<Link>)
    requires Good(s, st, links)
    ensures forall o <- st.created :: CreatedOk(s, st, links, o)
  {
  }

  lemma NewCreated(s: Store, next: State, links: seq<Link>, l: Link, id: Id)
    requires l in links && l.owner !in s.index && l.owner in next.created && next.created[l.owner] == id && id in next.plans
    requires next.plans[id].created && next.plans[id].identities == [l.owner]
    ensures CreatedOk(s, next, links, l.owner)
  {
  }

  /** A link's identity, added to the plan of its owner's Actor. */
  lemma NewAddition(s: Store, st: State, next: State, links: seq<Link>, l: Link, id: Id)
    requires Wired(links, []) && l in links && l.identity !in s.index && id in next.plans
    requires forall o <- st.created :: CreatedOk(s, st, links, o)
    requires next.created == st.created || next.created == st.created[l.owner := id]
    requires ActorOf(s, next, l.owner) == Holder(id)
    ensures AdditionOk(s, next, links, id, l.identity)
  {
    IdentityNoOwner(s, st, links, l);
  }

  lemma OldOwner(s: Store, st: State, links: seq<Link>, l: Link)
    requires Wired(links, []) && l in links && Good(s, st, links)
    requires l.identity !in s.index && ActorOf(s, st, l.owner).Holder?
    ensures var r := PlanLink(s, st, l); r.Planned? && Good(s, r.state, links) && Grows(st, r.state) && LinkPlanned(s, r.state, l)
  {
    hide AdditionOk, CreatedOk, Consistent, Wired, Good;
    AllCreated(s, st, links);
    IdentityNoOwner(s, st, links, l);
    var next := PlanLink(s, st, l).state;
    var id := ActorOf(s, st, l.owner).id;
    OwnerPlan(s, st, links, l.owner);
    NoOwnerAdditions(s, st, links);
    NewAddition(s, st, next, links, l, id);
    Assemble(s, st, next, links);
  }

  lemma NoOwnerAdditions(s: Store, st: State, links: seq<Link>)
    requires Good(s, st, links)
    ensures forall id, t | id in st.plans && t in st.plans[id].additions :: t !in st.created
  {
    forall id, t | id in st.plans && t in st.plans[id].additions ensures t !in st.created {
      assert AdditionOk(s, st, links, id, t);
    }
  }

  /** The plan of a found Actor holds that Actor's identities, and none that nobody holds and nobody will. */
  lemma OwnerPlan(s: Store, st: State, links: seq<Link>, i: Identity)
    requires Good(s, st, links) && ActorOf(s, st, i).Holder?
    ensures var id := ActorOf(s, st, i).id;
            && (id in st.plans || id in s.actors)
            && i in PlanOf(s, st, id).identities
            && forall x <- PlanOf(s, st, id).identities :: x in s.index || x in st.created
  {
    var id := ActorOf(s, st, i).id;
    if i in s.index {
      HolderExists(s, i);
      if id in st.plans {
        assert PlanOk(s, st, id);
      }
    } else {
      assert CreatedOk(s, st, links, i);
    }
  }

  lemma LinkKeeps(s: Store, st: State, links: seq<Link>, l: Link)
    requires Wired(links, []) && l in links && Good(s, st, links) && PlanLink(s, st, l).Planned?
    ensures var next := PlanLink(s, st, l).state; Good(s, next, links) && Grows(st, next) && LinkPlanned(s, next, l)
  {
    hide Good, Grows, Wired;
    if l.identity in s.index {
      Unchanged(st);
    } else if ActorOf(s, st, l.owner).Holder? {
      OldOwner(s, st, links, l);
    } else {
      NewOwner(s, st, links, l);
    }
  }

  lemma LinkStaysPlanned(s: Store, a: State, b: State, l: Link)
    requires LinkPlanned(s, a, l) && Grows(a, b)
    ensures LinkPlanned(s, b, l)
  {
  }

  lemma {:induction false} LinksKeep(s: Store, links: seq<Link>, n: nat, next: Id)
    requires Wired(links, []) && Consistent(s) && Fresh(s, next) && n <= |links| && PlanLinks(s, links[..n], next).Planned?
    ensures var st := PlanLinks(s, links[..n], next).state; Good(s, st, links) && forall l <- links[..n] :: LinkPlanned(s, st, l)
    decreases n
  {
    hide Good, Grows, Wired, LinkPlanned, PlanLink;
    if n == 0 {
      StartGood(s, links, next);
    } else {
      assert links[..n][..n - 1] == links[..n - 1] && links[..n] == links[..n - 1] + [links[n - 1]];
      LinksKeep(s, links, n - 1, next);
      var mid, st := PlanLinks(s, links[..n - 1], next).state, PlanLinks(s, links[..n], next).state;
      LinkKeeps(s, mid, links, links[n - 1]);
      forall l | l in links[..n] ensures LinkPlanned(s, st, l) {
        if l in links[..n - 1] {
          LinkStaysPlanned(s, mid, st, l);
        }
      }
    }
  }

  lemma StartGood(s: Store, links: seq<Link>, next: Id)
    requires Consistent(s) && Fresh(s, next)
    ensures Good(s, State(map[], map[], map[], next), links)
  {
  }

  // ---------- Mappings ----------

  /** A planned target: it is, or will be, on the Actor, and the only identity of its platform there. */
  ghost predicate TargetPlanned(st: State, id: Id, t: Identity) {
    && id in st.plans && (t in st.plans[id].identities || t in st.plans[id].additions)
    && t.platform in st.plans[id].targets && st.plans[id].targets[t.platform] == t.externalId
    && t in st.claimed && st.claimed[t] == id
    && !Other(st.plans[id].identities, t)
  }

  lemma TargetKeeps(s: Store, st: State, links: seq<Link>, id: Id, t: Identity)
    requires Good(s, st, links) && Wired(links, []) && IsTarget(t) && id in st.plans && PlanTarget(s, st, id, t).Planned?
    ensures var next := PlanTarget(s, st, id, t).state;
            Good(s, next, links) && Grows(st, next) && TargetPlanned(next, id, t) && next.created == st.created
  {
    hide Wired, Other, Good, CreatedOk, Consistent, AdditionOk;
    TargetFree(s, st, links, id, t);
    NoOwnerAdditions(s, st, links);
    var next := PlanTarget(s, st, id, t).state;
    if t !in st.plans[id].identities {
      NewTarget(s, next, links, id, t);
    }
    Assemble(s, st, next, links);
  }

  lemma NewTarget(s: Store, next: State, links: seq<Link>, id: Id, t: Identity)
    requires IsTarget(t) && id in next.plans && t !in s.index && t !in next.created && t in next.claimed && next.claimed[t] == id
    requires t.platform in next.plans[id].targets && next.plans[id].targets[t.platform] == t.externalId
    ensures AdditionOk(s, next, links, id, t)
  {
  }

  /** A target that passed the checks and is not on the Actor is on no Actor. */
  lemma TargetFree(s: Store, st: State, links: seq<Link>, id: Id, t: Identity)
    requires Good(s, st, links) && Wired(links, []) && IsTarget(t) && id in st.plans
    requires t in s.index ==> s.index[t] == id
    ensures t !in st.created && (t in s.index ==> t in st.plans[id].identities)
  {
    hide AdditionOk;
    assert PlanOk(s, st, id);
    if t in s.index {
      HolderExists(s, t);
    }
    if t in st.created {
      assert CreatedOk(s, st, links, t);
      OwnersAreNoTargets(links, t);
    }
  }

  lemma OwnersAreNoTargets(links: seq<Link>, o: Identity)
    requires Wired(links, []) && exists l <- links :: l.owner == o
    ensures !IsTarget(o)
  {
  }

  lemma TargetStaysPlanned(a: State, b: State, id: Id, t: Identity)
    requires TargetPlanned(a, id, t) && Grows(a, b)
    ensures TargetPlanned(b, id, t)
  {
  }

  lemma {:induction false} TargetsKeep(s: Store, st: State, links: seq<Link>, id: Id, ts: seq<Identity>)
    requires Good(s, st, links) && Wired(links, []) && (forall t <- ts :: IsTarget(t)) && id in st.plans
    requires PlanTargets(s, st, id, ts).Planned?
    ensures var next := PlanTargets(s, st, id, ts).state;
            && Good(s, next, links) && Grows(st, next) && next.created == st.created
            && forall t <- ts :: TargetPlanned(next, id, t)
    decreases |ts|
  {
    hide Good, Wired, Grows, TargetPlanned, PlanTarget;
    if ts == [] {
      Unchanged(st);
    } else {
      var n := |ts| - 1;
      var mid, next := PlanTargets(s, st, id, ts[..n]).state, PlanTargets(s, st, id, ts).state;
      assert ts == ts[..n] + [ts[n]];
      TargetsKeep(s, st, links, id, ts[..n]);
      TargetKeeps(s, mid, links, id, ts[n]);
      GrowsTransitive(st, mid, next);
      forall t | t in ts ensures TargetPlanned(next, id, t) {
        if t in ts[..n] {
          TargetStaysPlanned(mid, next, id, t);
        }
      }
    }
  }

  ghost predicate MappingPlanned(s: Store, st: State, m: Mapping) {
    var actor := ActorOf(s, st, m.actor);
    actor.Holder? ==> forall t <- m.targets :: TargetPlanned(st, actor.id, t)
  }

  lemma AddPlan(s: Store, st: State, links: seq<Link>, i: Identity)
    requires Good(s, st, links) && ActorOf(s, st, i).Holder?
    ensures var id := ActorOf(s, st, i).id;
            var next := st.(plans := st.plans[id := PlanOf(s, st, id)]);
            Good(s, next, links) && Grows(st, next)
  {
    hide Good, AdditionOk, CreatedOk, Consistent;
    var id := ActorOf(s, st, i).id;
    OwnerPlan(s, st, links, i);
    NoOwnerAdditions(s, st, links);
    Assemble(s, st, st.(plans := st.plans[id := PlanOf(s, st, id)]), links);
  }

  lemma MappingKeeps(s: Store, st: State, links: seq<Link>, m: Mapping)
    requires Good(s, st, links) && Wired(links, []) && (forall t <- m.targets :: IsTarget(t)) && PlanMapping(s, st, m).Planned?
    ensures var next := PlanMapping(s, st, m).state;
            Good(s, next, links) && Grows(st, next) && next.created == st.created && MappingPlanned(s, next, m)
  {
    hide Good, Wired, Grows, TargetPlanned, PlanTargets, PlanOf;
    var actor := ActorOf(s, st, m.actor);
    if actor.Nobody? {
      Unchanged(st);
    } else {
      var mid := st.(plans := st.plans[actor.id := PlanOf(s, st, actor.id)]);
      AddPlan(s, st, links, m.actor);
      TargetsKeep(s, mid, links, actor.id, m.targets);
      GrowsTransitive(st, mid, PlanMapping(s, st, m).state);
    }
  }

  lemma MappingStaysPlanned(s: Store, a: State, b: State, m: Mapping)
    requires MappingPlanned(s, a, m) && Grows(a, b) && b.created == a.created
    ensures MappingPlanned(s, b, m)
  {
    var actor := ActorOf(s, a, m.actor);
    if actor.Holder? {
      forall t | t in m.targets ensures TargetPlanned(b, actor.id, t) {
        TargetStaysPlanned(a, b, actor.id, t);
      }
    }
  }

  /** Everything the planning of a configuration leaves behind. */
  ghost predicate AllPlanned(s: Store, st: State, links: seq<Link>, mappings: seq<Mapping>) {
    && Good(s, st, links)
    && (forall l <- links :: LinkPlanned(s, st, l))
    && (forall m <- mappings :: MappingPlanned(s, st, m))
  }

  lemma {:induction false} PlanningKeeps(s: Store, links: seq<Link>, mappings: seq<Mapping>, next: Id)
    requires Wired(links, []) && (forall m <- mappings :: forall t <- m.targets :: IsTarget(t))
    requires Consistent(s) && Fresh(s, next) && PlanAll(s, links, mappings, next).Planned?
    ensures AllPlanned(s, PlanAll(s, links, mappings, next).state, links, mappings)
    decreases |mappings|
  {
    hide Good, Grows, Wired, LinkPlanned, MappingPlanned, PlanMapping, PlanLinks;
    if mappings == [] {
      assert links[..|links|] == links;
      LinksKeep(s, links, |links|, next);
    } else {
      var n := |mappings| - 1;
      assert mappings == mappings[..n] + [mappings[n]];
      PlanningKeeps(s, links, mappings[..n], next);
      var mid, st := PlanAll(s, links, mappings[..n], next).state, PlanAll(s, links, mappings, next).state;
      MappingKeeps(s, mid, links, mappings[n]);
      forall l | l in links ensures LinkPlanned(s, st, l) {
        LinkStaysPlanned(s, mid, st, l);
      }
      forall m | m in mappings ensures MappingPlanned(s, st, m) {
        if m in mappings[..n] {
          MappingStaysPlanned(s, mid, st, m);
        }
      }
    }
  }

  // ---------- The writes ----------

  predicate Writes(p: Plan) {
    p.additions != [] || p.created
  }

  /** The Actors once the plans in `done` are saved. */
  function WithPlans(actors: map<Id, seq<Identity>>, plans: map<Id, Plan>, done: set<Id>): map<Id, seq<Identity>> {
    actors + (map id | id in plans && id in done && Writes(plans[id]) :: plans[id].identities + plans[id].additions)
  }

  /** The outcome of a provisioning run on store `s`. */
  ghost predicate Outcome(s: Store, st: State, after: Store) {
    after.actors == WithPlans(s.actors, st.plans, st.plans.Keys) && Consistent(after)
  }

  /** Actor `k`, stored or planned, holds `i`. */
  predicate Holds(s: Store, st: State, k: Id, i: Identity) {
    (k in s.actors && i in s.actors[k]) || (k in st.plans && (i in st.plans[k].identities || i in st.plans[k].additions))
  }

  /** Who holds an identity is told by the index, the planned new Actors, the claims or the links. */
  lemma HolderIs(s: Store, st: State, links: seq<Link>, k: Id, i: Identity)
    requires Good(s, st, links) && Holds(s, st, k, i)
    ensures i in s.index ==> s.index[i] == k
    ensures i !in s.index && i in st.created ==> st.created[i] == k
    ensures i !in s.index && i !in st.created && IsTarget(i) ==> i in st.claimed && st.claimed[i] == k
    ensures i !in s.index && i !in st.created && !IsTarget(i) ==>
              exists l <- links :: l.identity == i && ActorOf(s, st, l.owner) == Holder(k)
  {
    if k in s.actors && i in s.actors[k] {
    } else if i in st.plans[k].identities {
      assert PlanOk(s, st, k);
      if st.plans[k].created {
        assert CreatedOk(s, st, links, i);
      }
    } else {
      assert AdditionOk(s, st, links, k, i);
    }
  }

  /** The two owners are, or will be, one Actor. */
  predicate SameActor(s: Store, a: Identity, b: Identity) {
    a == b || (a in s.index && b in s.index && s.index[a] == s.index[b])
  }

  /** Two links give an identity that nobody holds yet to owners of different Actors. */
  ghost predicate Clash(s: Store, links: seq<Link>, i: Identity) {
    i !in s.index && exists l, k :: l in links && k in links && l.identity == i && k.identity == i && !SameActor(s, l.owner, k.owner)
  }

  lemma OwnersApart(s: Store, st: State, links: seq<Link>, a: Identity, b: Identity)
    requires Good(s, st, links) && ActorOf(s, st, a).Holder? && ActorOf(s, st, b).Holder?
    ensures ActorOf(s, st, a) == ActorOf(s, st, b) <==> SameActor(s, a, b)
  {
    hide AdditionOk;
    if a !in s.index {
      assert CreatedOk(s, st, links, a);
      assert PlanOk(s, st, st.created[a]);
    }
    if b !in s.index {
      assert CreatedOk(s, st, links, b);
      assert PlanOk(s, st, st.created[b]);
    }
    if a in s.index {
      HolderExists(s, a);
    }
    if b in s.index {
      HolderExists(s, b);
    }
  }

  /** Without a clash an identity is on one Actor; a Jira or GitHub identity always. */
  lemma OneOfThem(s: Store, st: State, links: seq<Link>, a: Id, b: Id, i: Identity)
    requires Good(s, st, links) && Wired(links, []) && Holds(s, st, a, i) && Holds(s, st, b, i) && !Clash(s, links, i)
    ensures a == b
  {
    hide Good, Holds;
    HolderIs(s, st, links, a, i);
    HolderIs(s, st, links, b, i);
    if i !in s.index && i !in st.created && !IsTarget(i) {
      var l :| l in links && l.identity == i && ActorOf(s, st, l.owner) == Holder(a);
      var k :| k in links && k.identity == i && ActorOf(s, st, k.owner) == Holder(b);
      OwnersApart(s, st, links, l.owner, k.owner);
    }
  }

  ghost predicate NoClash(s: Store, links: seq<Link>) {
    forall l <- links :: !Clash(s, links, l.identity)
  }

  lemma ClashIsLinked(s: Store, links: seq<Link>, i: Identity)
    requires NoClash(s, links)
    ensures !Clash(s, links, i)
  {
  }

  /** Saving one more plan. */
  lemma SavePlan(s: Store, st: State, links: seq<Link>, done: set<Id>, now: Store, id: Id)
    requires Good(s, st, links) && Wired(links, []) && NoClash(s, links) && id in st.plans && Consistent(now)
    requires now.actors == WithPlans(s.actors, st.plans, done)
    ensures var plan := st.plans[id];
            var after := if Writes(plan) then Save(now, id, plan.identities + plan.additions) else now;
            Consistent(after) && after.actors == WithPlans(s.actors, st.plans, done + {id})
  {
    hide Good, Wired, PlanOk, Consistent, Save, WithPlans, Holds, NoClash;
    var plan := st.plans[id];
    if Writes(plan) {
      forall i | i in plan.identities + plan.additions && i in now.index ensures now.index[i] == id {
        NoTheft(s, st, links, done, now, id, i);
      }
      SaveConsistent(now, id, plan.identities + plan.additions);
    }
    OneMore(s, st, done, now, id);
  }

  lemma NoTheft(s: Store, st: State, links: seq<Link>, done: set<Id>, now: Store, id: Id, i: Identity)
    requires Good(s, st, links) && Wired(links, []) && NoClash(s, links) && id in st.plans && Consistent(now)
    requires now.actors == WithPlans(s.actors, st.plans, done)
    requires i in st.plans[id].identities + st.plans[id].additions && i in now.index
    ensures now.index[i] == id
  {
    hide Good, Wired, NoClash;
    HolderExists(now, i);
    assert Holds(s, st, id, i) && Holds(s, st, now.index[i], i);
    ClashIsLinked(s, links, i);
    OneOfThem(s, st, links, id, now.index[i], i);
  }

  lemma OneMore(s: Store, st: State, done: set<Id>, now: Store, id: Id)
    requires id in st.plans && now.actors == WithPlans(s.actors, st.plans, done)
    ensures var plan := st.plans[id];
            (if Writes(plan) then Save(now, id, plan.identities + plan.additions) else now).actors
            == WithPlans(s.actors, st.plans, done + {id})
  {
    hide WithPlans;
    var plan := st.plans[id];
    var more := WithPlans(s.actors, st.plans, done + {id});
    var saved := if Writes(plan) then now.actors[id := plan.identities + plan.additions] else now.actors;
    forall k ensures (k in saved <==> k in more) && (k in more ==> saved[k] == more[k]) {
      WithPlansAt(s.actors, st.plans, done, k);
      WithPlansAt(s.actors, st.plans, done + {id}, k);
    }
    assert saved == more;
  }

  lemma WithPlansAt(actors: map<Id, seq<Identity>>, plans: map<Id, Plan>, done: set<Id>, k: Id)
    ensures var r, saved := WithPlans(actors, plans, done), k in plans && k in done && Writes(plans[k]);
            && (k in r <==> k in actors || saved)
            && (k in r ==> r[k] == if saved then plans[k].identities + plans[k].additions else actors[k])
  {
  }

  // ---------- Main results ----------

  /** The Actors after a run whose planning succeeded. */
  ghost predicate Provisioned(s: Store, links: seq<Link>, mappings: seq<Mapping>, next: Id, after: Store) {
    && Wired(links, mappings) && Consistent(s) && Fresh(s, next) && PlanAll(s, links, mappings, next).Planned?
    && var st := PlanAll(s, links, mappings, next).state;
       after.actors == WithPlans(s.actors, st.plans, st.plans.Keys)
  }

  predicate OnActor(after: Store, a: Id, i: Identity) {
    a in after.actors && i in after.actors[a]
  }

  lemma PlansHold(s: Store, links: seq<Link>, st: State, after: Store, a: Id, i: Identity)
    requires Good(s, st, links) && after.actors == WithPlans(s.actors, st.plans, st.plans.Keys)
    ensures OnActor(after, a, i) <==> Holds(s, st, a, i)
  {
    if a in st.plans {
      assert PlanOk(s, st, a);
    }
  }

  /** Provisioning only adds: no Actor disappears and none loses or reorders an identity. */
  lemma OnlyAdds(s: Store, links: seq<Link>, mappings: seq<Mapping>, next: Id, after: Store, id: Id)
    requires Provisioned(s, links, mappings, next, after) && id in s.actors
    ensures id in after.actors && s.actors[id] <= after.actors[id]
  {
    hide Wired, PlanAll, AdditionOk, CreatedOk;
    WiredParts(links, mappings);
    PlanningKeeps(s, links, mappings, next);
    var st := PlanAll(s, links, mappings, next).state;
    if id in st.plans {
      assert PlanOk(s, st, id);
    }
  }

  lemma ClashShares(s: Store, links: seq<Link>, mappings: seq<Mapping>, st: State, after: Store, l: Link, k: Link)
    requires AllPlanned(s, st, links, mappings) && after.actors == WithPlans(s.actors, st.plans, st.plans.Keys)
    requires l in links && k in links && l.identity == k.identity && l.identity !in s.index && !SameActor(s, l.owner, k.owner)
    ensures exists a, b :: a != b && OnActor(after, a, l.identity) && OnActor(after, b, l.identity)
  {
    hide Good, OnActor, WithPlans;
    OwnersApart(s, st, links, l.owner, k.owner);
    var a, b := ActorOf(s, st, l.owner).id, ActorOf(s, st, k.owner).id;
    PlansHold(s, links, st, after, a, l.identity);
    PlansHold(s, links, st, after, b, l.identity);
    assert OnActor(after, a, l.identity) && OnActor(after, b, l.identity);
  }

  /** After a run an identity is on two Actors exactly when two links gave it, unheld, to owners of different Actors. */
  lemma TwoHoldersExactly(s: Store, links: seq<Link>, mappings: seq<Mapping>, next: Id, after: Store, i: Identity)
    requires Provisioned(s, links, mappings, next, after)
    ensures (exists a, b :: a != b && OnActor(after, a, i) && OnActor(after, b, i)) <==> Clash(s, links, i)
    ensures Clash(s, links, i) ==> !IsTarget(i) && i !in s.index
  {
    hide Good, PlanAll, OnActor, WithPlans, LinkPlanned, MappingPlanned;
    WiredParts(links, mappings);
    PlanningKeeps(s, links, mappings, next);
    var st := PlanAll(s, links, mappings, next).state;
    if Clash(s, links, i) {
      var l, k :| l in links && k in links && l.identity == i && k.identity == i && !SameActor(s, l.owner, k.owner);
      ClashShares(s, links, mappings, st, after, l, k);
    } else {
      forall a, b | OnActor(after, a, i) && OnActor(after, b, i) ensures a == b {
        PlansHold(s, links, st, after, a, i);
        PlansHold(s, links, st, after, b, i);
        OneOfThem(s, st, links, a, b, i);
      }
    }
  }

  lemma OneInIndex(after: Store, a: Id, b: Id, i: Identity)
    requires OnActor(after, a, i) && OnActor(after, b, i) && Consistent(after)
    ensures a == b
  {
    assert i in after.index && after.index[i] == a;
  }

  /** A clash leaves a store that no index fits. */
  lemma ClashInconsistent(s: Store, links: seq<Link>, mappings: seq<Mapping>, next: Id, after: Store)
    requires Provisioned(s, links, mappings, next, after) && !NoClash(s, links)
    ensures !Consistent(after)
  {
    hide Provisioned, Clash;
    var l :| l in links && Clash(s, links, l.identity);
    TwoHoldersExactly(s, links, mappings, next, after, l.identity);
    var a, b :| a != b && OnActor(after, a, l.identity) && OnActor(after, b, l.identity);
    if Consistent(after) {
      OneInIndex(after, a, b, l.identity);
    }
  }

  /** After a run every link holds, and every mapping whose Actor is known is applied. */
  lemma Applied(s: Store, links: seq<Link>, mappings: seq<Mapping>, next: Id, after: Store)
    requires Wired(links, mappings) && Consistent(s) && Fresh(s, next)
    requires PlanAll(s, links, mappings, next).Planned? && Outcome(s, PlanAll(s, links, mappings, next).state, after)
    ensures forall l <- links :: l.owner in after.index && l.identity in after.index && after.index[l.owner] == after.index[l.identity]
    ensures forall m, t | m in mappings && t in m.targets && m.actor in after.index :: t in after.index && after.index[t] == after.index[m.actor]
  {
    hide Good, Consistent, Wired, PlanAll;
    WiredParts(links, mappings);
    PlanningKeeps(s, links, mappings, next);
    var st := PlanAll(s, links, mappings, next).state;
    forall l | l in links
      ensures l.owner in after.index && l.identity in after.index && after.index[l.owner] == after.index[l.identity]
    {
      LinkHolds(s, links, st, after, l);
    }
    forall m, t | m in mappings && t in m.targets && m.actor in after.index
      ensures t in after.index && after.index[t] == after.index[m.actor]
    {
      MappingActor(s, links, mappings, st, after, m);
      assert MappingPlanned(s, st, m);
      TargetHolds(s, links, st, after, after.index[m.actor], t);
    }
  }

  lemma WiredParts(links: seq<Link>, mappings: seq<Mapping>)
    requires Wired(links, mappings)
    ensures Wired(links, []) && forall m <- mappings :: !IsTarget(m.actor) && forall t <- m.targets :: IsTarget(t)
  {
  }

  /** What an Actor holds after the run. */
  lemma HeldAfter(s: Store, links: seq<Link>, st: State, after: Store, id: Id, i: Identity)
    requires Good(s, st, links) && Outcome(s, st, after)
    ensures Holds(s, st, id, i) <==> i in after.index && after.index[i] == id
  {
    if id in st.plans {
      assert PlanOk(s, st, id);
    }
    assert (id in after.actors && i in after.actors[id]) <==> Holds(s, st, id, i);
  }

  lemma OwnerHolds(s: Store, links: seq<Link>, st: State, after: Store, i: Identity)
    requires Good(s, st, links) && Outcome(s, st, after) && ActorOf(s, st, i).Holder?
    ensures i in after.index && after.index[i] == ActorOf(s, st, i).id
  {
    hide Good, Outcome;
    OwnerPlan(s, st, links, i);
    HeldAfter(s, links, st, after, ActorOf(s, st, i).id, i);
  }

  lemma LinkHolds(s: Store, links: seq<Link>, st: State, after: Store, l: Link)
    requires Good(s, st, links) && Outcome(s, st, after) && LinkPlanned(s, st, l)
    ensures l.owner in after.index && l.identity in after.index && after.index[l.owner] == after.index[l.identity]
  {
    hide Good, Outcome;
    OwnerHolds(s, links, st, after, l.owner);
    if l.identity in s.index {
      OwnerHolds(s, links, st, after, l.identity);
    } else {
      HeldAfter(s, links, st, after, ActorOf(s, st, l.owner).id, l.identity);
    }
  }

  lemma TargetHolds(s: Store, links: seq<Link>, st: State, after: Store, id: Id, t: Identity)
    requires Good(s, st, links) && Outcome(s, st, after) && TargetPlanned(st, id, t)
    ensures t in after.index && after.index[t] == id
  {
    hide Good, Outcome;
    HeldAfter(s, links, st, after, id, t);
  }

  /** An Actor that a mapping names after the run was known during it. */
  lemma MappingActor(s: Store, links: seq<Link>, mappings: seq<Mapping>, st: State, after: Store, m: Mapping)
    requires Wired(links, mappings) && Good(s, st, links) && Outcome(s, st, after) && m in mappings && m.actor in after.index
    ensures ActorOf(s, st, m.actor) == Holder(after.index[m.actor])
  {
    hide Good, Outcome;
    HeldAfter(s, links, st, after, after.index[m.actor], m.actor);
    HolderIs(s, st, links, after.index[m.actor], m.actor);
  }

  // ---------- A second run ----------

  /** A state of the second run: it has found Actors and targets, and planned no write. */
  ghost predicate Idle(first: State, after: Store, st: State) {
    && st.created == map[]
    && (forall id <- st.plans :: IdlePlan(first, after, id, st.plans[id]))
    && (forall t <- st.claimed :: t in first.claimed && first.claimed[t] == st.claimed[t])
  }

  ghost predicate IdlePlan(first: State, after: Store, id: Id, p: Plan) {
    && id in after.actors && p.identities == after.actors[id] && !Writes(p)
    && forall f <- p.targets :: id in first.plans && f in first.plans[id].targets && first.plans[id].targets[f] == p.targets[f]
  }

  /** After the run, an Actor holds no other identity of a planned target's platform. */
  lemma NoOther(s: Store, links: seq<Link>, first: State, after: Store, id: Id, t: Identity)
    requires Good(s, first, links) && Outcome(s, first, after) && TargetPlanned(first, id, t) && IsTarget(t)
    ensures id in after.actors && t in after.actors[id] && !Other(after.actors[id], t)
  {
    var plan := first.plans[id];
    assert PlanOk(s, first, id);
    forall x | x in after.actors[id] && x.platform == t.platform ensures x.externalId == t.externalId {
      if x in plan.additions {
        assert AdditionOk(s, first, links, id, x);
      }
    }
  }

  lemma IdleTarget(s: Store, links: seq<Link>, first: State, after: Store, st: State, id: Id, t: Identity)
    requires Good(s, first, links) && Outcome(s, first, after) && TargetPlanned(first, id, t) && IsTarget(t)
    requires Idle(first, after, st) && id in st.plans
    ensures var r := PlanTarget(after, st, id, t); r.Planned? && Idle(first, after, r.state) && r.state.plans.Keys == st.plans.Keys
  {
    hide Good, Outcome, Other, TargetPlanned, IdlePlan;
    NoOther(s, links, first, after, id, t);
    TargetHolds(s, links, first, after, id, t);
    TargetFacts(first, id, t);
    PlanStaysIdle(first, after, st, id, t);
    var next := PlanTarget(after, st, id, t).state;
    forall k | k in next.plans ensures IdlePlan(first, after, k, next.plans[k]) {
      if k != id {
        assert IdlePlan(first, after, k, st.plans[k]);
      }
    }
  }

  lemma PlanStaysIdle(first: State, after: Store, st: State, id: Id, t: Identity)
    requires Idle(first, after, st) && id in st.plans
    requires id in after.actors && t in after.actors[id] && !Other(after.actors[id], t)
    requires t in after.index && after.index[t] == id
    requires id in first.plans && t.platform in first.plans[id].targets && first.plans[id].targets[t.platform] == t.externalId
    requires t in first.claimed && first.claimed[t] == id
    ensures var r := PlanTarget(after, st, id, t);
            && r.Planned? && r.state.plans.Keys == st.plans.Keys && IdlePlan(first, after, id, r.state.plans[id])
            && (forall k <- st.plans :: k != id ==> r.state.plans[k] == st.plans[k])
            && r.state.created == st.created && r.state.claimed == st.claimed[t := id]
  {
    hide Other;
    assert IdlePlan(first, after, id, st.plans[id]);
  }

  lemma TargetFacts(first: State, id: Id, t: Identity)
    requires TargetPlanned(first, id, t)
    ensures id in first.plans && t.platform in first.plans[id].targets && first.plans[id].targets[t.platform] == t.externalId
    ensures t in first.claimed && first.claimed[t] == id
  {
  }

  lemma {:induction false} IdleTargets(s: Store, links: seq<Link>, first: State, after: Store, st: State, id: Id, ts: seq<Identity>)
    requires Good(s, first, links) && Outcome(s, first, after) && Idle(first, after, st) && id in st.plans
    requires forall t <- ts :: TargetPlanned(first, id, t) && IsTarget(t)
    ensures var r := PlanTargets(after, st, id, ts); r.Planned? && Idle(first, after, r.state)
    decreases |ts|
  {
    hide Good, Outcome, TargetPlanned, Idle, PlanTarget;
    if ts != [] {
      var n := |ts| - 1;
      assert ts == ts[..n] + [ts[n]];
      IdleTargets(s, links, first, after, st, id, ts[..n]);
      IdleTarget(s, links, first, after, PlanTargets(after, st, id, ts[..n]).state, id, ts[n]);
    }
  }

  lemma IdleMapping(s: Store, links: seq<Link>, mappings: seq<Mapping>, first: State, after: Store, st: State, m: Mapping)
    requires Wired(links, mappings) && AllPlanned(s, first, links, mappings) && Outcome(s, first, after) && m in mappings
    requires Idle(first, after, st)
    ensures var r := PlanMapping(after, st, m); r.Planned? && Idle(first, after, r.state)
  {
    hide Good, TargetPlanned, PlanTargets, Consistent, WithPlans, LinkPlanned;
    if m.actor in after.index {
      MappingActor(s, links, mappings, first, after, m);
      assert MappingPlanned(s, first, m);
      var id := after.index[m.actor];
      HolderInAfter(after, m.actor);
      WiredParts(links, mappings);
      IdleTargets(s, links, first, after, st.(plans := st.plans[id := PlanOf(after, st, id)]), id, m.targets);
    }
  }

  lemma HolderInAfter(after: Store, i: Identity)
    requires Consistent(after) && i in after.index
    ensures after.index[i] in after.actors
  {
    HolderExists(after, i);
  }

  lemma {:induction false} IdleLinks(after: Store, links: seq<Link>, next: Id)
    requires forall l <- links :: l.owner in after.index && l.identity in after.index && after.index[l.owner] == after.index[l.identity]
    ensures PlanLinks(after, links, next) == Planned(State(map[], map[], map[], next))
    decreases |links|
  {
    if links != [] {
      IdleLinks(after, links[..|links| - 1], next);
      assert links[|links| - 1] in links;
    }
  }

  lemma {:induction false} IdleAll(s: Store, links: seq<Link>, mappings: seq<Mapping>, first: State, after: Store, n: nat, next: Id)
    requires Wired(links, mappings) && AllPlanned(s, first, links, mappings) && Outcome(s, first, after) && n <= |mappings|
    requires PlanLinks(after, links, next) == Planned(State(map[], map[], map[], next))
    ensures var r := PlanAll(after, links, mappings[..n], next); r.Planned? && Idle(first, after, r.state)
    decreases n
  {
    hide AllPlanned, Wired, Outcome, PlanMapping, PlanLinks, IdlePlan;
    if n > 0 {
      assert mappings[..n][..n - 1] == mappings[..n - 1];
      IdleAll(s, links, mappings, first, after, n - 1, next);
      IdleMapping(s, links, mappings, first, after, PlanAll(after, links, mappings[..n - 1], next).state, mappings[n - 1]);
    }
  }

  /** A second run on the result of the first one finds no conflict and writes nothing. */
  lemma SecondRunWritesNothing(s: Store, links: seq<Link>, mappings: seq<Mapping>, next: Id, after: Store, later: Id)
    requires Wired(links, mappings) && Consistent(s) && Fresh(s, next)
    requires PlanAll(s, links, mappings, next).Planned? && Outcome(s, PlanAll(s, links, mappings, next).state, after)
    ensures var again := PlanAll(after, links, mappings, later);
            && again.Planned?
            && (forall id <- again.state.plans :: !Writes(again.state.plans[id]))
            && WithPlans(after.actors, again.state.plans, again.state.plans.Keys) == after.actors
  {
    hide Good, Consistent, Wired, PlanLinks, LinkPlanned, MappingPlanned, Outcome, PlanAll;
    WiredParts(links, mappings);
    PlanningKeeps(s, links, mappings, next);
    Applied(s, links, mappings, next, after);
    IdleLinks(after, links, later);
    var first := PlanAll(s, links, mappings, next).state;
    assert mappings[..|mappings|] == mappings;
    IdleAll(s, links, mappings, first, after, |mappings|, later);
    var again := PlanAll(after, links, mappings, later).state;
    forall id | id in again.plans ensures !Writes(again.plans[id]) {
      assert IdlePlan(first, after, id, again.plans[id]);
    }
  }

  // ---------- The source's loops ----------

  class Storage {
    var store: Store

    constructor (initial: Store)
      ensures store == initial
    {
      store := initial;
    }

    /** Nothing is written unless every link and mapping passed; then every plan is saved, in any order. The index still
        names one Actor for each identity unless two links clash. */
    method Provision(links: seq<Link>, mappings: seq<Mapping>, next: Id) returns (ok: bool)
      requires Wired(links, mappings) && Consistent(store) && Fresh(store, next)
      modifies this
      ensures ok == PlanAll(old(store), links, mappings, next).Planned?
      ensures !ok ==> store == old(store)
      ensures ok ==> Provisioned(old(store), links, mappings, next, store)
      ensures ok ==> (Consistent(store) <==> NoClash(old(store), links))
    {
      hide PlanAll, PlanLinks, PlanMapping, Good, Consistent, Wired, WithPlans, Save, NoClash;
      var planned := PlanEverything(links, mappings, next);
      if planned.Conflict? {
        return false;
      }
      ghost var s, st := store, planned.state;
      WiredParts(links, mappings);
      PlanningKeeps(s, links, mappings, next);
      var left := planned.state.plans.Keys;
      NothingSaved(s, st);
      while left != {}
        invariant left <= st.plans.Keys
        invariant store.actors == WithPlans(s.actors, st.plans, st.plans.Keys - left)
        invariant NoClash(s, links) ==> Consistent(store)
        decreases |left|
      {
        var id :| id in left;
        var plan := planned.state.plans[id];
        OneMore(s, st, st.plans.Keys - left, store, id);
        if NoClash(s, links) {
          SavePlan(s, st, links, st.plans.Keys - left, store, id);
        }
        assert st.plans.Keys - (left - {id}) == (st.plans.Keys - left) + {id};
        left := left - {id};
        if plan.additions != [] || plan.created {
          store := Save(store, id, plan.identities + plan.additions);
        }
      }
      assert st.plans.Keys - {} == st.plans.Keys;
      assert Provisioned(s, links, mappings, next, store);
      if !NoClash(s, links) {
        ClashInconsistent(s, links, mappings, next, store);
      }
      return true;
    }

    method PlanEverything(links: seq<Link>, mappings: seq<Mapping>, next: Id) returns (r: Planned)
      ensures r == PlanAll(store, links, mappings, next)
    {
      hide PlanLink, PlanMapping;
      r := Planned(State(map[], map[], map[], next));
      var i := 0;
      while i < |links|
        invariant 0 <= i <= |links| && r.Planned? && r == PlanLinks(store, links[..i], next)
      {
        assert links[..i + 1][..i] == links[..i];
        r := PlanLink(store, r.state, links[i]);
        i := i + 1;
        if r.Conflict? {
          LinkConflict(store, links, i, next);
          ConflictStays(store, links, mappings, 0, next);
          return;
        }
      }
      assert links[..i] == links;
      i := 0;
      while i < |mappings|
        invariant 0 <= i <= |mappings| && r.Planned? && r == PlanAll(store, links, mappings[..i], next)
      {
        assert mappings[..i + 1][..i] == mappings[..i];
        r := PlanMapping(store, r.state, mappings[i]);
        i := i + 1;
        if r.Conflict? {
          ConflictStays(store, links, mappings, i, next);
          return;
        }
      }
      assert mappings[..i] == mappings;
    }
  }

  lemma NothingSaved(s: Store, st: State)
    ensures WithPlans(s.actors, st.plans, st.plans.Keys - st.plans.Keys) == s.actors
  {
  }

  lemma {:induction false} LinkConflict(s: Store, links: seq<Link>, n: nat, next: Id)
    requires n <= |links| && PlanLinks(s, links[..n], next).Conflict?
    ensures PlanLinks(s, links, next).Conflict?
    decreases |links| - n
  {
    hide PlanLink;
    if n < |links| {
      assert links[..n + 1][..n] == links[..n];
      LinkConflict(s, links, n + 1, next);
    } else {
      assert links[..n] == links;
    }
  }

  lemma {:induction false} ConflictStays(s: Store, links: seq<Link>, mappings: seq<Mapping>, n: nat, next: Id)
    requires n <= |mappings| && PlanAll(s, links, mappings[..n], next).Conflict?
    ensures PlanAll(s, links, mappings, next).Conflict?
    decreases |mappings| - n
  {
    hide PlanMapping, PlanLinks;
    if n < |mappings| {
      assert mappings[..n + 1][..n] == mappings[..n];
      ConflictStays(s, links, mappings, n + 1, next);
    } else {
      assert mappings[..n] == mappings;
    }
  }
}
