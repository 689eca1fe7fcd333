/** `InstallerCreatorProxy` (proxy.py): stands in front of a real creator,
    logs the start of a run, hands the run to the real creator, and logs how
    it ended, giving back the real creator's result or re-raising its
    exception unchanged. */
module Proxy {
  import opened Effects
  import opened Creator
  import opened FlyweightFactory
  import MsiCreator
  import ExeCreator

  /** The real creators the proxy can stand in front of. */
  datatype RealCreator =
    | Msi(request: Request)
    | Exe(request: Request)

  /** What the real creator's `create_installer` does. */
  function Create(c: RealCreator, env: Env): Trace {
    match c
    case Msi(req) => MsiCreator.MsiCreate(req, env)
    case Exe(req) => ExeCreator.ExeCreate(req, env)
  }

  /** Whether the real creator's run goes through the shared flyweight registry. */
  predicate UsesRegistry(c: RealCreator, env: Env) {
    match c
    case Msi(req) => MsiCreator.UsesRegistry(req, env)
    case Exe(req) => ExeCreator.UsesRegistry(req, env)
  }

  /** The format key under which the real creator keeps its flyweight. */
  function RegistryKey(c: RealCreator): string {
    match c
    case Msi(_) => "MSI"
    case Exe(_) => "EXE"
  }

  /** Runs the real creator against the shared registry. */
  method RunCreator(c: RealCreator, registry: InstallerFlyweightFactory, env: Env) returns (t: Trace)
    requires registry.Valid()
    modifies registry
    ensures t == Create(c, env)
    ensures registry.Valid()
    ensures registry.flyweights.Keys == old(registry.flyweights.Keys) + (if UsesRegistry(c, env) then {RegistryKey(c)} else {})
    ensures forall k :: k in old(registry.flyweights) ==> registry.flyweights[k] == old(registry.flyweights)[k]
  {
    match c
    case Msi(req) =>
      t := MsiCreator.CreateInstaller(req, registry, env);
    case Exe(req) =>
      t := ExeCreator.CreateInstaller(req, registry, env);
  }

  function StartRecord(installerType: string): Event {
    Log(Info, "Proxy: Starting to create " + installerType + " installer.")
  }

  function SuccessRecord(installerType: string): Event {
    Log(Info, "Proxy: " + installerType + " installer created successfully.")
  }

  function ErrorRecord(installerType: string, message: string): Event {
    Log(Error, "Proxy: Error occurred while creating " + installerType + " installer - " + message)
  }

  /** The record logged once the real creator has finished: success when it
      returned, the error with the exception's text when it raised. */
  function EndRecord(installerType: string, outcome: Outcome): Event {
    match outcome
    case Returned => SuccessRecord(installerType)
    case Raised(msg) => ErrorRecord(installerType, msg)
  }

  /** The proxy's run around a real creator's run `inner`. */
  function Wrap(installerType: string, inner: Trace): Trace {
    Trace([StartRecord(installerType)] + inner.events + [EndRecord(installerType, inner.outcome)], inner.outcome)
  }

  class InstallerCreatorProxy {
    const realCreator: RealCreator
    const installerType: string

    constructor (realCreator: RealCreator, installerType: string)
      ensures this.realCreator == realCreator && this.installerType == installerType
    {
      this.realCreator := realCreator;
      this.installerType := installerType;
    }

    /** `create_installer`: the real creator's run, between the start record
        and the end record; its result or exception passes through. */
    method CreateInstaller(registry: InstallerFlyweightFactory, env: Env) returns (t: Trace)
      requires registry.Valid()
      modifies registry
      ensures t == Wrap(installerType, Create(realCreator, env))
      ensures registry.Valid()
      ensures registry.flyweights.Keys == old(registry.flyweights.Keys) + (if UsesRegistry(realCreator, env) then {RegistryKey(realCreator)} else {})
      ensures forall k :: k in old(registry.flyweights) ==> registry.flyweights[k] == old(registry.flyweights)[k]
    {
      var events := [StartRecord(installerType)];
      var result := RunCreator(realCreator, registry, env);
      events := events + result.events;
      if result.outcome.Raised? {
        events := events + [ErrorRecord(installerType, result.outcome.message)];
        return Trace(events, result.outcome);
      }
      events := events + [SuccessRecord(installerType)];
      t := Trace(events, result.outcome);
    }
  }

  /** The proxy changes nothing about the run it wraps: the same outcome (the
      same exception, re-raised), and the real creator's events, in order,
      between a first and a last event of its own. */
  lemma WrapKeepsRun(installerType: string, inner: Trace)
    ensures var r := Wrap(installerType, inner);
            r.outcome == inner.outcome
            && |r.events| == |inner.events| + 2
            && r.events[1..|r.events| - 1] == inner.events
            && r.events[0] == StartRecord(installerType)
  {
    var r := Wrap(installerType, inner);
    assert r.events[1..|r.events| - 1] == inner.events;
  }

  /** The proxy's last event reports success exactly when the run returned,
      and the error, with the exception's text, exactly when it raised. */
  lemma WrapEndRecord(installerType: string, inner: Trace)
    ensures var r := Wrap(installerType, inner);
            (r.events[|r.events| - 1] == SuccessRecord(installerType) <==> inner.outcome.Returned?)
            && (inner.outcome.Raised? ==> r.events[|r.events| - 1] == ErrorRecord(installerType, inner.outcome.message))
  {
    var r := Wrap(installerType, inner);
    if inner.outcome.Raised? {
      assert r.events[|r.events| - 1].level == Error;
    }
  }

  /** The real creators log nothing of their own. */
  lemma CreateNoLogs(c: RealCreator, env: Env)
    ensures Logs(Create(c, env).events) == []
  {
    match c
    case Msi(req) =>
      MsiCreator.MsiNoLogs(req, env);
      LogsNone(Create(c, env).events);
    case Exe(req) =>
      ExeCreator.ExeNoLogs(req, env);
      LogsNone(Create(c, env).events);
  }

  /** Each proxied run leaves exactly two log records: the start, then either
      the success or the error with the exception's text. */
  lemma {:induction false} ProxyLogs(installerType: string, c: RealCreator, env: Env)
    ensures var inner := Create(c, env);
            Logs(Wrap(installerType, inner).events) == [StartRecord(installerType), EndRecord(installerType, inner.outcome)]
  {
    var inner := Create(c, env);
    var start := [StartRecord(installerType)];
    var end := [EndRecord(installerType, inner.outcome)];
    CreateNoLogs(c, env);
    LogsAppend(start, inner.events);
    LogsAppend(start + inner.events, end);
    assert Logs(start) == start;
    assert Logs(end) == end;
  }

  /** The proxy's subprocess calls are the real creator's, in order. */
  lemma {:induction false} ProxyCommands(installerType: string, c: RealCreator, env: Env)
    ensures Commands(Wrap(installerType, Create(c, env)).events) == Commands(Create(c, env).events)
  {
    var inner := Create(c, env);
    var start := [StartRecord(installerType)];
    var end := [EndRecord(installerType, inner.outcome)];
    CommandsAppend(start, inner.events);
    CommandsAppend(start + inner.events, end);
    assert Commands(start) == [];
    assert Commands(end) == [];
  }
}
