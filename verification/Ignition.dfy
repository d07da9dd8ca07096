/** The ignition server's handlers (pkg/service/ignition/server.go) over a shared machine (pkg/define/struct.go).
    GET and PATCH hold the server's mutex throughout and the Signal methods are atomic, so every run is a sequence
    of these steps. The JSON codec of the machine's spec is a parameter. */
module Ignition {
  import opened Readiness
  import opened MergePatch
  import opened Wrappers

  datatype Codec<!S> = Codec(encode: S -> Json, decode: Json -> Option<S>)

  /** The body of a PATCH request. */
  datatype Body = ReadError | NotJson | Doc(doc: Json)

  datatype Step =
    | GetConfig
    | PatchConfig(body: Body)
    | PostReady(service: string)
    | OtherRequest          // a method that is not handled
    | NetworkOnline         // waitVirtualNetworkOnline succeeds

  /** HTTP status (0 for the internal step) and whether a Signal call returned true. */
  datatype Reply = Reply(status: nat, first: bool)

  datatype Machine<S> = Machine(spec: S, closed: set<Channel>)

  datatype Outcome<S> = Outcome(machine: Machine<S>, reply: Reply)

  function ServiceChannel(service: string): Option<Channel> {
    match service
    case "ssh" => Some(SSHReady)
    case "podman" => Some(PodmanReady)
    case "guest-network" => Some(VNetGuestReady)
    case _ => None
  }

  function SignalOn<S>(m: Machine<S>, c: Channel, status: nat): Outcome<S> {
    Outcome(m.(closed := m.closed + {c}), Reply(status, c !in m.closed))
  }

  function Serve<S>(codec: Codec<S>, m: Machine<S>, step: Step): Outcome<S> {
    match step
    case GetConfig => Outcome(m, Reply(200, false))
    case OtherRequest => Outcome(m, Reply(405, false))
    case NetworkOnline => SignalOn(m, VNetHostReady, 0)
    case PostReady(service) =>
      (match ServiceChannel(service)
       case Some(c) => SignalOn(m, c, 200)
       case None => Outcome(m, Reply(404, false)))
    case PatchConfig(ReadError) => Outcome(m, Reply(400, false))
    case PatchConfig(NotJson) => Outcome(m, Reply(400, false))
    case PatchConfig(Doc(doc)) =>
      match codec.decode(Merge(codec.encode(m.spec), doc))
      case Some(spec) => Outcome(m.(spec := spec), Reply(200, false))
      case None => Outcome(m, Reply(500, false))
  }

  // --- The objects ----------------------------------------------------------------------

  class MachineObject<S> {
    var spec: S
    var runtime: Readiness?

    constructor (spec: S)
      ensures this.spec == spec && runtime != null && fresh(runtime) && runtime.Valid() && runtime.closed == {}
    {
      this.spec := spec;
      runtime := new Readiness();
    }

    method EnsureRuntime()
      modifies this`runtime
      ensures old(runtime) != null ==> runtime == old(runtime)
      ensures old(runtime) == null ==> runtime != null && fresh(runtime) && runtime.Valid() && runtime.closed == {}
    {
      if runtime == null {
        runtime := new Readiness();
      }
    }

    /** Decodes into a fresh spec before assigning it; never replaces existing readiness state. */
    method UnmarshalJSON(codec: Codec<S>, data: Json) returns (ok: bool)
      modifies this
      ensures ok <==> codec.decode(data).Some?
      ensures ok ==> spec == codec.decode(data).value && runtime != null
      ensures !ok ==> spec == old(spec) && runtime == old(runtime)
      ensures old(runtime) != null ==> runtime == old(runtime)
      ensures old(runtime) == null && runtime != null ==> fresh(runtime)
    {
      var decoded := codec.decode(data);
      if decoded.None? {
        return false;
      }
      spec := decoded.value;
      EnsureRuntime();
      return true;
    }
  }

  class Server<S> {
    const codec: Codec<S>
    const vmc: MachineObject<S>

    constructor (codec: Codec<S>, vmc: MachineObject<S>)
      ensures this.codec == codec && this.vmc == vmc
    {
      this.codec, this.vmc := codec, vmc;
    }

    ghost predicate Valid()
      reads this, vmc, vmc.runtime
    {
      vmc.runtime != null && vmc.runtime.Valid()
    }

    ghost function Abstract(): Machine<S>
      requires Valid()
      reads this, vmc, vmc.runtime
    {
      Machine(vmc.spec, vmc.runtime.closed)
    }

    method HandleVMConfig(step: Step) returns (reply: Reply)
      requires Valid() && (step.GetConfig? || step.PatchConfig? || step.OtherRequest?)
      modifies vmc
      ensures vmc.runtime == old(vmc.runtime) && Valid()
      ensures Outcome(Abstract(), reply) == Serve(codec, old(Abstract()), step)
    {
      if step.GetConfig? {
        reply := Reply(200, false);
      } else if step.PatchConfig? {
        if !step.body.Doc? {
          return Reply(400, false);
        }
        var merged := ApplyPatch(codec.encode(vmc.spec), step.body.doc);
        var ok := vmc.UnmarshalJSON(codec, merged);
        reply := Reply(if ok then 200 else 500, false);
      } else {
        reply := Reply(405, false);
      }
    }

    method HandleReady(step: Step) returns (reply: Reply)
      requires Valid() && (step.PostReady? || step.OtherRequest?)
      modifies vmc.runtime
      ensures Valid() && Outcome(Abstract(), reply) == Serve(codec, old(Abstract()), step)
    {
      if step.OtherRequest? {
        return Reply(405, false);
      }
      match ServiceChannel(step.service)
      case Some(c) =>
        var first := vmc.runtime.Signal(c);
        reply := Reply(200, first);
      case None => reply := Reply(404, false);
    }

    method VirtualNetworkOnline() returns (reply: Reply)
      requires Valid()
      modifies vmc.runtime
      ensures Valid() && Outcome(Abstract(), reply) == Serve(codec, old(Abstract()), NetworkOnline)
    {
      var first := vmc.runtime.Signal(VNetHostReady);
      reply := Reply(0, first);
    }
  }

  // --- Whole runs -----------------------------------------------------------------------

  function Run<S>(codec: Codec<S>, m: Machine<S>, steps: seq<Step>): Machine<S>
    decreases steps
  {
    if steps == [] then m else Run(codec, Serve(codec, m, steps[0]).machine, steps[1..])
  }

  /** Does this step signal this channel? */
  predicate Signals(step: Step, c: Channel) {
    || (step.NetworkOnline? && c == VNetHostReady)
    || (step.PostReady? && ServiceChannel(step.service) == Some(c))
  }

  /** How many Signal calls for `c` return true over the run. */
  function Firsts<S>(codec: Codec<S>, m: Machine<S>, steps: seq<Step>, c: Channel): nat
    decreases steps
  {
    if steps == [] then 0
    else
      var out := Serve(codec, m, steps[0]);
      (if Signals(steps[0], c) && out.reply.first then 1 else 0) + Firsts(codec, out.machine, steps[1..], c)
  }

  lemma SomeSignal(steps: seq<Step>, c: Channel)
    requires steps != []
    ensures (exists i :: 0 <= i < |steps| && Signals(steps[i], c)) <==>
            Signals(steps[0], c) || exists i :: 0 <= i < |steps[1..]| && Signals(steps[1..][i], c)
  {
    if i :| 0 <= i < |steps| && Signals(steps[i], c) {
      if i > 0 {
        assert steps[1..][i - 1] == steps[i];
      }
    }
    if i :| 0 <= i < |steps[1..]| && Signals(steps[1..][i], c) {
      assert steps[i + 1] == steps[1..][i];
    }
  }

  /** Over every run: readiness never goes back, a channel ends closed iff it was signalled, and exactly one of the
      signals of a channel that was open returns true. PATCH, however it ends, has no part in this. */
  lemma {:induction false} ReadinessOverRun<S>(codec: Codec<S>, m: Machine<S>, steps: seq<Step>, c: Channel)
    ensures m.closed <= Run(codec, m, steps).closed
    ensures c in Run(codec, m, steps).closed <==> c in m.closed || exists i :: 0 <= i < |steps| && Signals(steps[i], c)
    ensures Firsts(codec, m, steps, c) ==
            if c !in m.closed && exists i :: 0 <= i < |steps| && Signals(steps[i], c) then 1 else 0
    decreases steps
  {
    if steps != [] {
      var next := Serve(codec, m, steps[0]).machine;
      ReadinessOverRun(codec, next, steps[1..], c);
      SomeSignal(steps, c);
      assert c in next.closed <==> c in m.closed || Signals(steps[0], c);
    }
  }

  /** The patches that were accepted, in order. */
  function Accepted<S>(codec: Codec<S>, m: Machine<S>, steps: seq<Step>): seq<Json>
    decreases steps
  {
    if steps == [] then []
    else
      var out := Serve(codec, m, steps[0]);
      (if steps[0].PatchConfig? && out.reply.status == 200 then [steps[0].body.doc] else []) +
      Accepted(codec, out.machine, steps[1..])
  }

  /** The spec that a list of patches leads to, None when one of them does not decode. */
  function PatchAll<S>(codec: Codec<S>, spec: S, docs: seq<Json>): Option<S>
    decreases docs
  {
    if docs == [] then Some(spec)
    else
      match codec.decode(Merge(codec.encode(spec), docs[0]))
      case Some(next) => PatchAll(codec, next, docs[1..])
      case None => None
  }

  /** Over every run the spec is what the accepted patches alone make of it: a failed PATCH leaves no mark, and
      neither do the other requests. */
  lemma {:induction false} SpecOverRun<S>(codec: Codec<S>, m: Machine<S>, steps: seq<Step>)
    ensures PatchAll(codec, m.spec, Accepted(codec, m, steps)) == Some(Run(codec, m, steps).spec)
    decreases steps
  {
    if steps != [] {
      var out := Serve(codec, m, steps[0]);
      var rest := Accepted(codec, out.machine, steps[1..]);
      SpecOverRun(codec, out.machine, steps[1..]);
      if steps[0].PatchConfig? && out.reply.status == 200 {
        var docs := [steps[0].body.doc] + rest;
        assert docs[1..] == rest;
      } else {
        assert [] + rest == rest;
      }
    }
  }

  // --- The names, written out ---------------------------------------------------------------

  lemma NamedSteps(step: Step)
    ensures Signals(step, SSHReady) <==> step == PostReady("ssh")
    ensures Signals(step, PodmanReady) <==> step == PostReady("podman")
    ensures Signals(step, VNetGuestReady) <==> step == PostReady("guest-network")
    ensures Signals(step, VNetHostReady) <==> step == NetworkOnline
  {
  }

  lemma SignalledIff<S>(codec: Codec<S>, m: Machine<S>, steps: seq<Step>, c: Channel, step: Step)
    requires (c, step) in {(SSHReady, PostReady("ssh")), (PodmanReady, PostReady("podman")),
                           (VNetGuestReady, PostReady("guest-network")), (VNetHostReady, NetworkOnline)}
    ensures c in Run(codec, m, steps).closed <==> c in m.closed || step in steps
  {
    ReadinessOverRun(codec, m, steps, c);
    forall i | 0 <= i < |steps| ensures Signals(steps[i], c) <==> steps[i] == step {
      NamedSteps(steps[i]);
    }
  }

  /** Over every run, each channel ends closed if and only if it was before or its own service was posted; the host's
      network only by its probe. */
  lemma ChannelsOverRun<S>(codec: Codec<S>, m: Machine<S>, steps: seq<Step>)
    ensures var closed := Run(codec, m, steps).closed;
            && (SSHReady in closed <==> SSHReady in m.closed || PostReady("ssh") in steps)
            && (PodmanReady in closed <==> PodmanReady in m.closed || PostReady("podman") in steps)
            && (VNetGuestReady in closed <==> VNetGuestReady in m.closed || PostReady("guest-network") in steps)
            && (VNetHostReady in closed <==> VNetHostReady in m.closed || NetworkOnline in steps)
  {
    SignalledIff(codec, m, steps, SSHReady, PostReady("ssh"));
    SignalledIff(codec, m, steps, PodmanReady, PostReady("podman"));
    SignalledIff(codec, m, steps, VNetGuestReady, PostReady("guest-network"));
    SignalledIff(codec, m, steps, VNetHostReady, NetworkOnline);
  }

  /** The status of every answer: for a service, 404 exactly if its name is unknown; for a patch, 400 exactly if it
      cannot be read or is not JSON, 500 exactly if what it makes of the spec does not decode, and 200 otherwise. */
  lemma Statuses<S>(codec: Codec<S>, m: Machine<S>, step: Step)
    ensures var status := Serve(codec, m, step).reply.status;
            && (step.PostReady? ==> status == if step.service in {"ssh", "podman", "guest-network"} then 200 else 404)
            && (step.PatchConfig? ==>
                  && (status == 400 <==> !step.body.Doc?)
                  && (status == 200 <==> step.body.Doc? && codec.decode(Merge(codec.encode(m.spec), step.body.doc)).Some?)
                  && status in {200, 400, 500})
            && (step.GetConfig? ==> status == 200) && (step.OtherRequest? ==> status == 405)
  {
  }
}
