/** The cluster-facing helpers (kube_utils.py): counting running pods, the
    service that exposes the inference servers in one of two modes, and scaling
    the server deployment together with its KEDA ScaledObject. The Kubernetes API
    is replaced by a `Cluster` object holding the state those calls change; a
    call the API server refuses is given as an error status in a parameter, and
    what the deployment reports as available comes from a trace of readings. */
module KubeUtils {
  import opened Outcomes
  import opened Config

  datatype Pod = Pod(name: string, labels: map<string, string>, phase: Option<string>, log: string)

  /** A label selector "key=value". */
  datatype Selector = Selector(key: string, value: string)

  const TRITON_SELECTOR := Selector("app.kubernetes.io/component", "triton")

  predicate Selects(sel: Selector, pod: Pod)
  {
    sel.key in pod.labels && pod.labels[sel.key] == sel.value
  }

  /** `list_namespaced_pod(label_selector=...)`: the matching pods, in list order. */
  function Select(pods: seq<Pod>, sel: Selector): (r: seq<Pod>)
    ensures |r| <= |pods|
  {
    if pods == [] then []
    else (if Selects(sel, pods[0]) then [pods[0]] else []) + Select(pods[1..], sel)
  }

  /** The listing holds exactly the pods of the list that carry the label. */
  lemma {:induction false} SelectSpec(pods: seq<Pod>, sel: Selector)
    ensures forall p :: p in Select(pods, sel) ==> p in pods && Selects(sel, p)
    ensures forall i :: 0 <= i < |pods| && Selects(sel, pods[i]) ==> pods[i] in Select(pods, sel)
  {
    if pods != [] {
      SelectSpec(pods[1..], sel);
      assert forall i :: 1 <= i < |pods| ==> pods[i] == pods[1..][i - 1];
    }
  }

  predicate IsRunning(pod: Pod)
  {
    pod.phase == Some("Running")
  }

  /** `sum(1 for pod in pods if pod.status.phase == "Running")`. */
  function CountRunning(pods: seq<Pod>): (n: nat)
    ensures n <= |pods|
  {
    if pods == [] then 0 else (if IsRunning(pods[0]) then 1 else 0) + CountRunning(pods[1..])
  }

  /** The count is additive over a split of the pod list. */
  lemma {:induction false} CountRunningAppend(a: seq<Pod>, b: seq<Pod>)
    ensures CountRunning(a + b) == CountRunning(a) + CountRunning(b)
  {
    if a == [] {
      assert a + b == b;
    } else {
      assert (a + b)[1..] == a[1..] + b;
      CountRunningAppend(a[1..], b);
    }
  }

  /** Every pod counts exactly when all are running; none counts exactly when
      none is running. */
  lemma {:induction false} CountRunningExtremes(pods: seq<Pod>)
    ensures CountRunning(pods) == |pods| <==> forall i :: 0 <= i < |pods| ==> IsRunning(pods[i])
    ensures CountRunning(pods) == 0 <==> forall i :: 0 <= i < |pods| ==> !IsRunning(pods[i])
  {
    if pods != [] {
      CountRunningExtremes(pods[1..]);
      assert forall i :: 1 <= i < |pods| ==> pods[i] == pods[1..][i - 1];
    }
  }

  /** count_running_pods: running pods among those the selector lists. */
  function CountRunningPods(pods: seq<Pod>, sel: Selector): nat
  {
    CountRunning(Select(pods, sel))
  }

  /** count_running_servers: running pods labelled as Triton servers. */
  function CountRunningServers(pods: seq<Pod>): nat
  {
    CountRunningPods(pods, TRITON_SELECTOR)
  }

  /** No server counts exactly when no pod labelled with the Triton component
      is running; pods without that label never count. */
  lemma RunningServersSpec(pods: seq<Pod>)
    ensures CountRunningServers(pods) == 0 <==>
      forall i :: 0 <= i < |pods| && Selects(TRITON_SELECTOR, pods[i]) ==> !IsRunning(pods[i])
  {
    var listed := Select(pods, TRITON_SELECTOR);
    SelectSpec(pods, TRITON_SELECTOR);
    CountRunningExtremes(listed);
    if forall j :: 0 <= j < |listed| ==> !IsRunning(listed[j]) {
      forall i | 0 <= i < |pods| && Selects(TRITON_SELECTOR, pods[i]) ensures !IsRunning(pods[i]) {
        assert pods[i] in listed;
      }
    }
    if forall i :: 0 <= i < |pods| && Selects(TRITON_SELECTOR, pods[i]) ==> !IsRunning(pods[i]) {
      forall j | 0 <= j < |listed| ensures !IsRunning(listed[j]) {
        assert listed[j] in listed;
      }
    }
  }

  datatype ServiceType = ClusterIP | LoadBalancer

  datatype ServicePort = ServicePort(name: string, port: int, targetPort: int)

  datatype Service = Service(
    name: string, namespace: string, serviceType: ServiceType,
    clusterIP: Option<string>, selector: map<string, string>, ports: seq<ServicePort>)

  const SERVICE_PORTS := [
    ServicePort("http", 8000, 8000), ServicePort("grpc", 8001, 8001), ServicePort("metrics", 8002, 8002)
  ]

  const TRITON_POD_SELECTOR := map[
    "app.kubernetes.io/component" := "triton",
    "app.kubernetes.io/instance" := "sonic-server",
    "app.kubernetes.io/name" := "supersonic"
  ]

  /** create_headless_service: a ClusterIP service with no cluster address. */
  function HeadlessService(): Service
  {
    Service(BARE_TRITON_SERVICE, NAMESPACE, ClusterIP, Some("None"), TRITON_POD_SELECTOR, SERVICE_PORTS)
  }

  /** create_loadbalancer_service: an externally load-balanced service. */
  function LoadBalancerService(): Service
  {
    Service(BARE_TRITON_SERVICE, NAMESPACE, LoadBalancer, None, TRITON_POD_SELECTOR, SERVICE_PORTS)
  }

  /** The service set_service_mode creates for a mode; `None` for a mode it refuses. */
  function ServiceFor(mode: string): (r: Option<Service>)
    ensures r.Some? <==> mode == SUPERSONIC || mode == BARE_TRITON
    ensures r.Some? ==> r.value.name == BARE_TRITON_SERVICE && r.value.ports == SERVICE_PORTS
    ensures mode == SUPERSONIC ==> r.value.serviceType == ClusterIP && r.value.clusterIP == Some("None")
    ensures mode == BARE_TRITON ==> r.value.serviceType == LoadBalancer && r.value.clusterIP.None?
  {
    if mode == SUPERSONIC then Some(HeadlessService())
    else if mode == BARE_TRITON then Some(LoadBalancerService())
    else None
  }

  /** Both kinds of service expose exactly http 8000, grpc 8001 and metrics 8002,
      each forwarded to the same port on the pods. */
  lemma ServicePortsFixed(mode: string)
    requires ServiceFor(mode).Some?
    ensures var ps := ServiceFor(mode).value.ports;
      |ps| == 3 &&
      ps[0] == ServicePort("http", 8000, 8000) &&
      ps[1] == ServicePort("grpc", 8001, 8001) &&
      ps[2] == ServicePort("metrics", 8002, 8002) &&
      forall i :: 0 <= i < |ps| ==> ps[i].port == ps[i].targetPort
  {
  }

  /** The min/max replica counts of the KEDA ScaledObject. */
  datatype ScalingBounds = ScalingBounds(minReplicaCount: int, maxReplicaCount: int)

  /** The patch scale_deployment sends to the ScaledObject: autoscaling between
      1 and 10 servers in supersonic mode, otherwise pinned to `replicas`. */
  function KedaBounds(mode: string, replicas: int): (b: ScalingBounds)
    ensures mode == SUPERSONIC ==> b == ScalingBounds(1, 10)
    ensures mode != SUPERSONIC ==> b.minReplicaCount == b.maxReplicaCount == replicas
  {
    if mode == SUPERSONIC then ScalingBounds(1, 10) else ScalingBounds(replicas, replicas)
  }

  /** What a convergence wait polls for: availability back to zero, or at least a target. */
  datatype Goal = Drained | AtLeast(target: int)

  /** `dep.available_replicas or 0` meets the goal. */
  predicate Reached(goal: Goal, available: Option<int>)
  {
    match goal
    case Drained => OrZero(available) == 0
    case AtLeast(target) => OrZero(available) >= target
  }

  /** The index of the first reading at or after `from` that meets the goal, or
      |readings| if none does (the real loop would go on polling forever). */
  function FirstReached(readings: seq<Option<int>>, from: nat, goal: Goal): (k: nat)
    requires from <= |readings|
    ensures from <= k <= |readings|
    ensures forall i :: from <= i < k ==> !Reached(goal, readings[i])
    ensures k < |readings| ==> Reached(goal, readings[k])
    decreases |readings| - from
  {
    if from == |readings| || Reached(goal, readings[from]) then from
    else FirstReached(readings, from + 1, goal)
  }

  /** One convergence wait of scale_deployment: read the deployment until its
      availability meets the goal, starting at reading `from`. */
  method WaitFor(readings: seq<Option<int>>, from: nat, goal: Goal) returns (next: nat)
    requires from <= |readings|
    ensures next == FirstReached(readings, from, goal)
  {
    next := from;
    while next < |readings| && !Reached(goal, readings[next])
      invariant from <= next <= |readings|
      invariant FirstReached(readings, from, goal) == FirstReached(readings, next, goal)
    {
      next := next + 1;
    }
  }

  /** An absent reading counts as zero: it ends the drain wait, and it ends the
      scale-up wait only for a target of zero or less. */
  lemma AbsentReadsAsZero(goal: Goal)
    ensures Reached(goal, None) <==> (goal.Drained? || goal.target <= 0)
  {
  }

  /** How scale_deployment ended on the given readings: it returned after
      `polls` readings, or the trace ran out while it was still polling. */
  datatype ScaleOutcome = Converged(polls: nat) | StillWaiting

  /** A mutation the API server accepted. */
  datatype Action =
    | ServiceDeleted
    | ServiceCreated(svc: Service)
    | ScaledObjectPatched(bounds: ScalingBounds)
    | ReplicasPatched(replicas: int)

  /** The exceptions that leave set_service_mode. */
  datatype ModeError = ApiError(status: int) | InvalidMode(mode: string)

  const NOT_FOUND := 404
  const CONFLICT := 409

  /** The part of the cluster the benchmark changes: the service named
      BARE_TRITON_SERVICE, the ScaledObject's bounds and the deployment's replica
      count, with the accepted mutations in order. */
  class Cluster {
    var service: Option<Service>
    var scaledObject: ScalingBounds
    var replicas: int
    var history: seq<Action>

    constructor (service: Option<Service>, scaledObject: ScalingBounds, replicas: int)
      ensures this.service == service && this.scaledObject == scaledObject && this.replicas == replicas
      ensures history == []
    {
      this.service := service;
      this.scaledObject := scaledObject;
      this.replicas := replicas;
      history := [];
    }

    /** delete_service. `refusal` is an error status the API server answers
        instead of deleting; a missing service is answered with 404. A 404 is
        absorbed, any other status is raised. */
    method DeleteService(refusal: Option<int>) returns (err: Option<ModeError>)
      modifies this
      ensures err == if refusal.Some? && refusal.value != NOT_FOUND then Some(ApiError(refusal.value)) else None
      ensures service == if refusal.None? then None else old(service)
      ensures history == old(history) + if refusal.None? && old(service).Some? then [ServiceDeleted] else []
      ensures scaledObject == old(scaledObject) && replicas == old(replicas)
    {
      match refusal {
        case Some(status) =>
          err := if status != NOT_FOUND then Some(ApiError(status)) else None;
        case None =>
          if service.Some? {
            service := None;
            history := history + [ServiceDeleted];
          }
          err := None;
      }
    }

    /** create_namespaced_service: refused with `refusal`, or with 409 when the
        service already exists. */
    method CreateService(svc: Service, refusal: Option<int>) returns (err: Option<ModeError>)
      modifies this
      ensures err == if refusal.Some? then Some(ApiError(refusal.value))
                     else if old(service).Some? then Some(ApiError(CONFLICT)) else None
      ensures service == if err.None? then Some(svc) else old(service)
      ensures history == old(history) + if err.None? then [ServiceCreated(svc)] else []
      ensures scaledObject == old(scaledObject) && replicas == old(replicas)
    {
      if refusal.Some? {
        err := Some(ApiError(refusal.value));
      } else if service.Some? {
        err := Some(ApiError(CONFLICT));
      } else {
        service := Some(svc);
        history := history + [ServiceCreated(svc)];
        err := None;
      }
    }

    /** set_service_mode: delete first (a failure other than 404 stops here),
        then create the service of the mode; a mode other than supersonic or
        bare_triton raises only after the delete has happened. */
    method SetServiceMode(mode: string, deleteRefusal: Option<int>, createRefusal: Option<int>)
      returns (err: Option<ModeError>)
      modifies this
      ensures scaledObject == old(scaledObject) && replicas == old(replicas)
      ensures deleteRefusal.Some? && deleteRefusal.value != NOT_FOUND ==>
        err == Some(ApiError(deleteRefusal.value)) && service == old(service) && history == old(history)
      ensures deleteRefusal.None? || deleteRefusal.value == NOT_FOUND ==>
        var afterDelete := if deleteRefusal.None? then None else old(service);
        var deleted := old(history) + if deleteRefusal.None? && old(service).Some? then [ServiceDeleted] else [];
        match ServiceFor(mode)
        case None => err == Some(InvalidMode(mode)) && service == afterDelete && history == deleted
        case Some(svc) =>
          if createRefusal.Some? then
            err == Some(ApiError(createRefusal.value)) && service == afterDelete && history == deleted
          else if afterDelete.Some? then
            err == Some(ApiError(CONFLICT)) && service == afterDelete && history == deleted
          else
            err.None? && service == Some(svc) && history == deleted + [ServiceCreated(svc)]
    {
      err := DeleteService(deleteRefusal);
      if err.Some? {
        return;
      }
      if mode == SUPERSONIC {
        err := CreateService(HeadlessService(), createRefusal);
      } else if mode == BARE_TRITON {
        err := CreateService(LoadBalancerService(), createRefusal);
      } else {
        err := Some(InvalidMode(mode));
      }
    }

    /** scale_deployment. The ScaledObject patch is chosen by mode; when the API
        refuses it (`patchRefused`) the error is swallowed and scaling goes on.
        With `reset` the replicas are set to 0 and the readings are polled until
        availability (absent read as 0) is 0; then the replicas are set to the
        target and polled until availability is at least the target. */
    method ScaleDeployment(target: int, mode: string, reset: bool, patchRefused: bool, readings: seq<Option<int>>)
      returns (outcome: ScaleOutcome)
      modifies this
      ensures service == old(service)
      ensures scaledObject == if patchRefused then old(scaledObject) else KedaBounds(mode, target)
      ensures var patched := old(history) + if patchRefused then [] else [ScaledObjectPatched(KedaBounds(mode, target))];
        var drained := FirstReached(readings, 0, Drained);
        if reset && drained == |readings| then
          outcome == StillWaiting && replicas == 0 && history == patched + [ReplicasPatched(0)]
        else
          var start := if reset then drained + 1 else 0;
          var up := FirstReached(readings, start, AtLeast(target));
          replicas == target &&
          history == patched + (if reset then [ReplicasPatched(0)] else []) + [ReplicasPatched(target)] &&
          outcome == if up < |readings| then Converged(up + 1) else StillWaiting
      ensures outcome.Converged? ==>
        0 < outcome.polls <= |readings| && replicas == target && OrZero(readings[outcome.polls - 1]) >= target
    {
      if !patchRefused {
        scaledObject := KedaBounds(mode, target);
        history := history + [ScaledObjectPatched(scaledObject)];
      }
      var next := 0;
      if reset {
        replicas := 0;
        history := history + [ReplicasPatched(0)];
        next := WaitFor(readings, 0, Drained);
        if next == |readings| {
          return StillWaiting;
        }
        next := next + 1;
      }
      replicas := target;
      history := history + [ReplicasPatched(target)];
      next := WaitFor(readings, next, AtLeast(target));
      if next == |readings| {
        return StillWaiting;
      }
      return Converged(next + 1);
    }
  }

  /** Switching to the same valid mode twice with no refusals leaves the same
      service: delete-then-create is safe to repeat. */
  method SwitchModeTwice(c: Cluster, mode: string) returns (first: Option<ModeError>, second: Option<ModeError>)
    requires ServiceFor(mode).Some?
    modifies c
    ensures first.None? && second.None?
    ensures c.service == ServiceFor(mode)
  {
    first := c.SetServiceMode(mode, None, None);
    second := c.SetServiceMode(mode, None, None);
  }
}
