/** The guard of the Environment's teardown is exact: a run in which one status write is lost,
    and the workload namespace outlives its Environment. */
module EnvironmentLostWrite {
  import opened Base
  import opened Conditions
  import opened Clusters
  import opened GitOps
  import opened Registries
  import opened Stages
  import opened EnvironmentResources
  import opened EnvironmentWebhook
  import opened EnvironmentStates
  import opened EnvironmentControllers

  const SPEC := EnvironmentSpec("acme", Development, MEDIUM_PROFILE, Delivery(NoProvider, None, false, false),
                                None, "", map[], [], false)

  /** One API call is refused: the status write of the pass that creates the namespace. After
      it the user deletes the Environment. Turns 2, 6 and 7 are not calls but acts of others. */
  function Script(n: nat): Turn<EnvironmentSpec> {
    if n == 2 then Turn(Deliver(1), Served, false)
    else if n == 5 then Turn(Resync, Refused, false)
    else if n == 6 then Turn(RequestDeletion, Served, false)
    else if n == 7 then Turn(Deliver(2), Served, false)
    else Turn(Resync, Served, false)
  }

  /** Between two passes, or in one: so many turns have gone by, there are so many versions, and the cache
      shows this one. */
  ghost predicate Scene(c: EnvironmentController, busy: bool, turn: nat, versions: nat, seen: nat, held: bool,
                        deleting: bool)
    reads c, c.stage, c.stage.registry, c.stage.cluster, c.stage.clock
  {
    && c.Valid() && c.stage.busy == busy && !c.stage.released && c.stage.Alone() && c.Faultless()
    && c.stage.registry.schedule == Script && c.tenantNamespace == "tenant-acme"
    && (forall n :: c.tenants(n) == Present("tenant-acme"))
    && var r := c.stage.registry;
       && r.turn == turn && |r.log| == versions > 0 && r.seen == seen < versions && !r.gone
       && r.Last() == Resource(SPEC, r.Last().generation, deleting, held, EMPTY_STATUS)
  }

  method Begin() returns (c: EnvironmentController)
    ensures fresh(c) && fresh(c.stage) && fresh(c.stage.registry) && fresh(c.stage.cluster) && fresh(c.clock)
    ensures Scene(c, false, 0, 1, 0, false, false) && NamespaceKey(c.site.target) !in c.stage.cluster.objects
  {
    var cluster := new Cluster((n: nat) => Served, (n: nat) => false, {}, map[]);
    var clock := new Clock((n: nat) => 1, 0);
    c := new EnvironmentController("dev", "default", "tenant-acme", 0, SPEC, Script, cluster, clock,
                                   (n: nat) => ResourceMove, (n: nat) => 0, (n: nat) => Present("tenant-acme"),
                                   (n: nat) => NO_REPORT, (p: string) => map[]);
  }

  /** Opens a pass over the version in the cache. */
  method Open(c: EnvironmentController, ghost turn: nat, ghost versions: nat, ghost seen: nat,
              ghost held: bool, ghost deleting: bool) returns (r: Registries.Reply<EnvironmentSpec, EnvironmentStatus>)
    requires Scene(c, false, turn, versions, seen, held, deleting) && Script(turn).outcome == Served
    modifies c.stage`history, c.stage`busy, c.stage`started, c.stage.registry, c.clock
    ensures Scene(c, true, turn + 1, versions, seen, held, deleting)
    ensures r.Found? && r.version == c.stage.registry.read == seen && r.resource == c.stage.Copy()
  {
    hide c.stage.Valid, EnvironmentRules, c.stage.registry.Valid, c.stage.cluster.Valid;
    c.stage.ValidParts();
    c.stage.Take();
    r := c.stage.Fetch();
  }

  /** The pass that adds the finalizer, and the event of its write. */
  method AddFinalizer(c: EnvironmentController)
    requires Scene(c, false, 0, 1, 0, false, false) && NamespaceKey(c.site.target) !in c.stage.cluster.objects
    modifies c, c.stage, c.stage.registry, c.stage.cluster, c.clock
    ensures Scene(c, false, 3, 2, 1, true, false) && NamespaceKey(c.site.target) !in c.stage.cluster.objects
  {
    hide c.stage.Valid, EnvironmentRules, c.stage.registry.Valid, c.stage.cluster.Valid;
    var r := Open(c, 0, 1, 0, false, false);
    var ok := c.stage.AddFinalizer(r.version);
    c.stage.Finish(!ok);
    assert c.stage.registry.Last() == Resource(SPEC, c.stage.registry.Last().generation, false, true, EMPTY_STATUS);
    c.stage.MoveResource();
  }

  /** The pass whose status write is refused. */
  method LoseStatus(c: EnvironmentController)
    requires Scene(c, false, 3, 2, 1, true, false) && NamespaceKey(c.site.target) !in c.stage.cluster.objects
    modifies c, c.stage, c.stage.registry, c.stage.cluster, c.clock
    ensures Scene(c, false, 6, 2, 1, true, false) && c.Up()
  {
    hide c.stage.Valid, EnvironmentRules, c.stage.registry.Valid, c.stage.cluster.Valid, c.Up;
    var r := Open(c, 3, 2, 1, true, false);
    var t := new WorkingCopy(r.version, r.resource);
    RunStranding(c, t);
    c.stage.Finish(true);
  }

  method RunStranding(c: EnvironmentController, t: WorkingCopy)
    requires Scene(c, true, 4, 2, 1, true, false) && c.Working(t) && c.Stranding(t)
    requires t.expiresAt == c.stage.Copy().status.expiresAt
    modifies c, c.stage, c.stage.registry, c.stage.cluster, c.clock, t, t.conditions
    ensures Scene(c, true, 6, 2, 1, true, false) && c.Up()
  {
    hide c.stage.Valid, EnvironmentRules, c.stage.registry.Valid, c.stage.cluster.Valid, c.Up, c.Working, c.Done;
    var err, requeueAfter;
    ghost var v, b, at;
    err, requeueAfter, v, b, at := c.ReconcileEnvironment(t);
  }

  /** The user deletes the Environment, and the cache shows it. */
  method DeleteByUser(c: EnvironmentController)
    requires Scene(c, false, 6, 2, 1, true, false) && c.Up()
    modifies c, c.stage, c.stage.registry, c.stage.cluster, c.clock
    ensures Scene(c, false, 8, 3, 2, true, true) && c.Up()
  {
    hide c.stage.Valid, EnvironmentRules, c.stage.registry.Valid, c.stage.cluster.Valid;
    c.stage.MoveResource();
    c.stage.MoveResource();
  }

  /** The finalize pass: it finds no target in the status, and releases the Environment. */
  method Release(c: EnvironmentController)
    requires Scene(c, false, 8, 3, 2, true, true) && c.Up()
    modifies c, c.stage, c.stage.registry, c.stage.cluster, c.clock
    ensures c.Valid() && c.stage.released && c.stage.registry.gone && c.Up()
  {
    hide c.stage.Valid, EnvironmentRules, c.stage.registry.Valid, c.stage.cluster.Valid;
    var r := Open(c, 8, 3, 2, true, true);
    var t := new WorkingCopy(r.version, r.resource);
    var err, requeueAfter := c.Finalize(t);
    c.stage.Finish(err);
    c.stage.ReleasedIsGone();
  }

  /** The whole run: the Environment is released while its workload namespace is alive. */
  method LeftBehind() returns (c: EnvironmentController)
    ensures c.Valid() && c.stage.released && c.stage.registry.gone
    ensures Live(c.stage.cluster.objects, NamespaceKey(c.site.target))
  {
    hide Scene;
    c := Begin();
    AddFinalizer(c);
    LoseStatus(c);
    DeleteByUser(c);
    Release(c);
  }
}
