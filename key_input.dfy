/** The key test button of the settings dialog: a format check on the key's
    prefix for Anthropic and OpenAI, a reachability probe for Ollama, and
    acceptance of any non-empty Kimi key. Only a passed format check returns
    the status to idle after a delay. */
module KeyInput {
  import opened JsRuntime
  import opened Types

  datatype TestStatus = StatusIdle | Testing | Passed | Failed

  /** Where a test ends, and whether it schedules the return to idle. */
  datatype Outcome = Outcome(status: TestStatus, schedulesIdle: bool)

  const AnthropicPrefix: string := "sk-ant-"
  const OpenAIPrefix: string := "sk-"

  /** `handleTest` for a key `value` of `provider`; `reachable` is whether
      the Ollama URL answered with a success status. An empty key is not
      tested at all. */
  function TestKey(provider: Provider, value: string, reachable: bool): (r: Option<Outcome>)
    ensures r.None? <==> value == ""
    ensures r.Some? ==> r.value.status == Passed || r.value.status == Failed
    ensures r.Some? ==> (r.value.schedulesIdle <==> r.value.status == Passed && provider != Ollama)
    ensures r.Some? && provider == Anthropic ==> (r.value.status == Passed <==> StartsWith(value, AnthropicPrefix))
    ensures r.Some? && provider == OpenAI ==> (r.value.status == Passed <==> StartsWith(value, OpenAIPrefix))
    ensures r.Some? && provider == Kimi ==> r.value == Outcome(Passed, true)
    ensures r.Some? && provider == Ollama ==> r.value == Outcome(if reachable then Passed else Failed, false)
  {
    if value == "" then None
    else if provider == Anthropic && !StartsWith(value, AnthropicPrefix) then Some(Outcome(Failed, false))
    else if provider == OpenAI && !StartsWith(value, OpenAIPrefix) then Some(Outcome(Failed, false))
    else if provider == Ollama then Some(Outcome(if reachable then Passed else Failed, false))
    else Some(Outcome(Passed, true))
  }

  /** Every key that passes the Anthropic check also passes the OpenAI one. */
  lemma AnthropicKeyPassesOpenAI(value: string, reachable: bool)
    requires TestKey(Anthropic, value, reachable) == Some(Outcome(Passed, true))
    ensures TestKey(OpenAI, value, reachable) == Some(Outcome(Passed, true))
  {
    assert OpenAIPrefix == AnthropicPrefix[..3];
  }

  /** The button's status, with the number of return-to-idle timers that
      have not fired yet. */
  class KeyTester {
    var status: TestStatus
    var idleTimers: nat

    constructor()
      ensures status == StatusIdle && idleTimers == 0
    {
      status := StatusIdle;
      idleTimers := 0;
    }

    /** One press of the test button, run to its end. */
    method HandleTest(provider: Provider, value: string, reachable: bool)
      modifies this
      ensures value == "" ==> status == old(status) && idleTimers == old(idleTimers)
      ensures value != "" ==> var o := TestKey(provider, value, reachable).value;
        && status == o.status
        && idleTimers == old(idleTimers) + (if o.schedulesIdle then 1 else 0)
    {
      var r := TestKey(provider, value, reachable);
      if r.None? {
        return;
      }
      status := Testing;
      status := r.value.status;
      if r.value.schedulesIdle {
        idleTimers := idleTimers + 1;
      }
    }

    /** A return-to-idle timer fires. */
    method FireTimer()
      modifies this
      requires idleTimers > 0
      ensures status == StatusIdle && idleTimers == old(idleTimers) - 1
    {
      status := StatusIdle;
      idleTimers := idleTimers - 1;
    }
  }
}
