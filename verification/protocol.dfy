/**
 * Properties of the call traces `Register` produces: the order in which the
 * platform is asked things, how often the user is prompted, and what the
 * channel writes in a trace do to the modelled channel table.
 */
module Protocol {
  import opened Wrappers
  import opened Platform
  import opened Channels
  import opened Registration

  /** Prompts add up over concatenation. */
  lemma {:induction false} PromptsConcat(a: seq<PlatformCall>, b: seq<PlatformCall>)
    ensures Prompts(a + b) == Prompts(a) + Prompts(b)
    decreases |a|
  {
    if |a| == 0 {
      assert a + b == b;
    } else {
      assert (a + b)[1..] == a[1..] + b;
      PromptsConcat(a[1..], b);
    }
  }

  /** A trace of channel writes prompts nobody. */
  lemma {:induction false} ChannelWritesPromptNobody(writes: seq<PlatformCall>)
    requires forall i :: 0 <= i < |writes| ==> writes[i].SetChannelCall?
    ensures Prompts(writes) == 0
    decreases |writes|
  {
    if |writes| > 0 {
      ChannelWritesPromptNobody(writes[1..]);
    }
  }

  /** The modelled channel table after the platform has served the calls of a trace; only channel writes change it. */
  function ApplyCalls(table: ChannelTable, calls: seq<PlatformCall>): ChannelTable
    decreases |calls|
  {
    if |calls| == 0 then table
    else
      var next := if calls[0].SetChannelCall? then SetChannel(table, calls[0].write) else table;
      ApplyCalls(next, calls[1..])
  }

  lemma {:induction false} ApplyCallsConcat(table: ChannelTable, a: seq<PlatformCall>, b: seq<PlatformCall>)
    ensures ApplyCalls(table, a + b) == ApplyCalls(ApplyCalls(table, a), b)
    decreases |a|
  {
    if |a| == 0 {
      assert a + b == b;
    } else {
      assert (a + b)[1..] == a[1..] + b;
      var next := if a[0].SetChannelCall? then SetChannel(table, a[0].write) else table;
      ApplyCallsConcat(next, a[1..], b);
    }
  }

  /** Calls that are not channel writes leave the table alone. */
  lemma {:induction false} ApplyQueries(table: ChannelTable, calls: seq<PlatformCall>)
    requires forall i :: 0 <= i < |calls| ==> !calls[i].SetChannelCall?
    ensures ApplyCalls(table, calls) == table
    decreases |calls|
  {
    if |calls| > 0 {
      ApplyQueries(table, calls[1..]);
    }
  }

  /** The provisioning calls have exactly the effect `Provision` describes. */
  lemma ProvisioningCallsProvision(os: Os, table: ChannelTable)
    ensures ApplyCalls(table, ProvisioningCalls(os)) == Provision(os, table)
  {
    var calls := ProvisioningCalls(os);
    if os == Android {
      var writes := ChannelWrites(os);
      var once := SetChannel(table, writes[0]);
      assert calls[1..][1..] == [];
      assert ApplyCalls(table, calls) == ApplyCalls(once, calls[1..]);
      assert ApplyCalls(once, calls[1..]) == ApplyCalls(SetChannel(once, writes[1]), []);
      ApplyWritesPair(table, writes[0], writes[1]);
    }
  }

  /**
   * Whatever the device, permissions and token service answer, the channel table after
   * registration is the provisioned one: provisioning does not depend on `isDevice`.
   */
  lemma RegisterProvisions(env: Environment, table: ChannelTable)
    ensures ApplyCalls(table, Register(env).trace) == Provision(env.os, table)
  {
    var trace := Register(env).trace;
    var provisioning := ProvisioningCalls(env.os);
    var rest := trace[|provisioning|..];
    assert trace == provisioning + rest;
    ApplyCallsConcat(table, provisioning, rest);
    ProvisioningCallsProvision(env.os, table);
    forall i | 0 <= i < |rest| ensures !rest[i].SetChannelCall? {
      RestHasNoChannelWrites(env, i);
    }
    ApplyQueries(Provision(env.os, table), rest);
  }

  /** After the provisioning prefix, registration writes no further channel. */
  lemma RestHasNoChannelWrites(env: Environment, i: nat)
    requires |ProvisioningCalls(env.os)| + i < |Register(env).trace|
    ensures !Register(env).trace[|ProvisioningCalls(env.os)| + i].SetChannelCall?
  {
  }

  /** On a simulator or emulator, registration touches nothing but the channels and resolves `undefined`. */
  lemma NonDeviceOnlyProvisions(env: Environment)
    requires !env.isDevice
    ensures !TouchesPermissionsOrToken(Register(env).trace)
    ensures Prompts(Register(env).trace) == 0
    ensures Register(env).outcome == Resolved(None)
  {
    ChannelWritesPromptNobody(ProvisioningCalls(env.os));
  }

  /** On a device, the user is prompted once when permission was not yet granted, and never otherwise. */
  lemma RegisterPromptCount(env: Environment)
    requires env.isDevice
    ensures Prompts(Register(env).trace) == (if env.existingStatus == Granted then 0 else 1)
  {
    var provisioning := ProvisioningCalls(env.os);
    var permission := AcquirePermission(env.existingStatus, env.requestedStatus);
    ChannelWritesPromptNobody(provisioning);
    PromptsConcat(provisioning, permission.calls);
    if permission.finalStatus == Granted {
      var token := FetchToken(env.config, env.tokenResponse);
      PromptsConcat(provisioning + permission.calls, token.calls);
      assert Prompts(token.calls) == 0 by {
        if token.calls != [] {
          assert token.calls[1..] == [];
        }
      }
    }
  }

  /** Every channel write in the trace precedes every other call. */
  predicate ChannelWritesFirst(trace: seq<PlatformCall>) {
    forall i, j :: 0 <= i < j < |trace| && !trace[i].SetChannelCall? ==> !trace[j].SetChannelCall?
  }

  /** The stages of the registration protocol, as a recogniser over traces. */
  datatype Phase = Provisioning | Queried | Prompted | TokenRequested

  /** The calls allowed in each phase: channel writes first, one query, at most one prompt, at most one token request. */
  function Next(phase: Phase, call: PlatformCall): Option<Phase> {
    match (phase, call)
    case (Provisioning, SetChannelCall(_)) => Some(Provisioning)
    case (Provisioning, GetPermissionsCall) => Some(Queried)
    case (Queried, RequestPermissionsCall) => Some(Prompted)
    case (Queried, GetTokenCall(_)) => Some(TokenRequested)
    case (Prompted, GetTokenCall(_)) => Some(TokenRequested)
    case _ => None
  }

  /** The trace is a run of the protocol starting in `phase`; it may stop in any phase. */
  function Accepts(phase: Phase, trace: seq<PlatformCall>): bool
    decreases |trace|
  {
    |trace| == 0 || (Next(phase, trace[0]).Some? && Accepts(Next(phase, trace[0]).value, trace[1..]))
  }

  /** A prefix of channel writes keeps the recogniser in the provisioning phase. */
  lemma {:induction false} AcceptsAfterChannelWrites(writes: seq<PlatformCall>, rest: seq<PlatformCall>)
    requires forall i :: 0 <= i < |writes| ==> writes[i].SetChannelCall?
    ensures Accepts(Provisioning, writes + rest) == Accepts(Provisioning, rest)
    decreases |writes|
  {
    if |writes| == 0 {
      assert writes + rest == rest;
    } else {
      assert (writes + rest)[1..] == writes[1..] + rest;
      AcceptsAfterChannelWrites(writes[1..], rest);
    }
  }

  /** The token step's calls are accepted in either phase that may request a token. */
  lemma TokenCallsAccepted(config: ProjectConfig, response: TokenResponse)
    ensures Accepts(Queried, FetchToken(config, response).calls)
    ensures Accepts(Prompted, FetchToken(config, response).calls)
  {
  }

  /** The permission step, followed by the token step or by nothing, is accepted after provisioning. */
  lemma PermissionThenTokenAccepted(env: Environment, withToken: bool)
    ensures Accepts(Provisioning,
      AcquirePermission(env.existingStatus, env.requestedStatus).calls +
      (if withToken then FetchToken(env.config, env.tokenResponse).calls else []))
  {
    var permission := AcquirePermission(env.existingStatus, env.requestedStatus);
    var token := if withToken then FetchToken(env.config, env.tokenResponse).calls else [];
    assert Accepts(Queried, token) && Accepts(Prompted, token) by {
      TokenCallsAccepted(env.config, env.tokenResponse);
    }
    if env.existingStatus == Granted {
      assert permission.calls == [GetPermissionsCall];
      assert (permission.calls + token)[1..] == token;
    } else {
      assert permission.calls == [GetPermissionsCall, RequestPermissionsCall];
      assert (permission.calls + token)[1..][1..] == token;
    }
  }

  /** Every trace of registration is a run of the protocol. */
  lemma RegisterFollowsProtocol(env: Environment)
    ensures Accepts(Provisioning, Register(env).trace)
  {
    var provisioning := ProvisioningCalls(env.os);
    var trace := Register(env).trace;
    var rest := trace[|provisioning|..];
    assert trace == provisioning + rest;
    AcceptsAfterChannelWrites(provisioning, rest);
    if env.isDevice {
      var permission := AcquirePermission(env.existingStatus, env.requestedStatus);
      var withToken := permission.finalStatus == Granted;
      assert rest == permission.calls + (if withToken then FetchToken(env.config, env.tokenResponse).calls else []);
      PermissionThenTokenAccepted(env, withToken);
    } else {
      assert rest == [];
    }
  }

  /** In an accepted trace, no channel write comes after the provisioning phase is left. */
  lemma {:induction false} NoChannelWritesAfterProvisioning(phase: Phase, trace: seq<PlatformCall>)
    requires phase != Provisioning && Accepts(phase, trace)
    ensures forall i :: 0 <= i < |trace| ==> !trace[i].SetChannelCall?
    decreases |trace|
  {
    if |trace| > 0 {
      NoChannelWritesAfterProvisioning(Next(phase, trace[0]).value, trace[1..]);
      forall i | 1 <= i < |trace| ensures !trace[i].SetChannelCall? {
        assert trace[i] == trace[1..][i - 1];
      }
    }
  }

  /** In an accepted trace, channel writes all come before any permission or token call. */
  lemma {:induction false} ChannelWritesComeFirst(trace: seq<PlatformCall>)
    requires Accepts(Provisioning, trace)
    ensures ChannelWritesFirst(trace)
    decreases |trace|
  {
    if |trace| > 0 {
      var next := Next(Provisioning, trace[0]).value;
      if next == Provisioning {
        ChannelWritesComeFirst(trace[1..]);
        forall i, j | 0 <= i < j < |trace| && !trace[i].SetChannelCall?
          ensures !trace[j].SetChannelCall?
        {
          assert trace[i] == trace[1..][i - 1];
          assert trace[j] == trace[1..][j - 1];
        }
      } else {
        NoChannelWritesAfterProvisioning(next, trace[1..]);
        forall j | 1 <= j < |trace| ensures !trace[j].SetChannelCall? {
          assert trace[j] == trace[1..][j - 1];
        }
      }
    }
  }

  /** An accepted trace prompts at most once, and not at all once the prompt phase is past. */
  lemma {:induction false} AcceptedPromptsAtMostOnce(phase: Phase, trace: seq<PlatformCall>)
    requires Accepts(phase, trace)
    ensures Prompts(trace) <= (if phase == Provisioning || phase == Queried then 1 else 0)
    decreases |trace|
  {
    if |trace| > 0 {
      AcceptedPromptsAtMostOnce(Next(phase, trace[0]).value, trace[1..]);
    }
  }

  /** Registration never prompts twice, and writes every channel before it asks about permissions. */
  lemma RegisterNeverPromptsTwice(env: Environment)
    ensures Prompts(Register(env).trace) <= 1
    ensures ChannelWritesFirst(Register(env).trace)
  {
    RegisterFollowsProtocol(env);
    AcceptedPromptsAtMostOnce(Provisioning, Register(env).trace);
    ChannelWritesComeFirst(Register(env).trace);
  }
}
