/** The circuit breaker: one mutable circuit per provider, created on first use. */
module Health {
  import opened Models
  import opened HealthSpec

  class CircuitState {
    var consecutiveFailures: int
    var openedAt: Option<real>
    var lastSuccessAt: Option<real>
    var lastFailureAt: Option<real>

    constructor ()
      ensures View() == CLOSED
    {
      consecutiveFailures := 0;
      openedAt, lastSuccessAt, lastFailureAt := None, None, None;
    }

    function View(): Circuit
      reads this
    {
      Circuit(consecutiveFailures, openedAt, lastSuccessAt, lastFailureAt)
    }

    method Success(at: real)
      modifies this
      ensures View() == OnSuccess(old(View()), at)
    {
      consecutiveFailures := 0;
      openedAt := None;
      lastSuccessAt := Some(at);
    }

    method Failure(at: real, openAt: real, threshold: int)
      modifies this
      ensures View() == OnFailure(old(View()), at, openAt, threshold)
    {
      consecutiveFailures := consecutiveFailures + 1;
      lastFailureAt := Some(at);
      if consecutiveFailures >= threshold {
        openedAt := Some(openAt);
      }
    }
  }

  class CircuitBreaker {
    const failureThreshold: int
    const cooldown: real
    var states: map<string, CircuitState>
    ghost var Repr: set<object>

    ghost predicate Valid()
      reads this
    {
      && this in Repr
      && (forall a :: a in states ==> states[a] in Repr)
      && (forall a, b :: a in states && b in states && a != b ==> states[a] != states[b])
    }

    ghost function View(): Circuits
      requires Valid()
      reads this, Repr
    {
      map p | p in states :: states[p].View()
    }

    constructor (failureThreshold: int, cooldown: real)
      ensures Valid() && fresh(Repr) && View() == map[]
      ensures this.failureThreshold == failureThreshold && this.cooldown == cooldown
    {
      this.failureThreshold, this.cooldown := failureThreshold, cooldown;
      states := map[];
      Repr := {this};
    }

    method StateOf(provider: string) returns (state: CircuitState)
      requires Valid()
      modifies this
      ensures Valid() && fresh(Repr - old(Repr))
      ensures provider in states && states[provider] == state
      ensures View() == Touch(old(View()), provider)
    {
      if provider !in states {
        state := new CircuitState();
        states := states[provider := state];
        Repr := Repr + {state};
      } else {
        state := states[provider];
      }
    }

    twostate lemma OneChanged(provider: string)
      requires old(Valid()) && provider in old(states) && unchanged(this)
      requires forall p :: p in states && p != provider ==> unchanged(states[p])
      ensures Valid() && Repr == old(Repr)
      ensures View() == old(View())[provider := states[provider].View()]
    {
    }

    method CanAttempt(provider: string, now: real) returns (allowed: bool)
      requires Valid()
      modifies Repr
      ensures Valid() && fresh(Repr - old(Repr))
      ensures View() == Touch(old(View()), provider)
      ensures allowed == Allows(HealthSpec.Lookup(old(View()), provider), now, cooldown)
    {
      var state := StateOf(provider);
      assert View()[provider] == state.View();
      if state.openedAt.None? {
        return true;
      }
      return now - state.openedAt.value >= cooldown;
    }

    method Success(provider: string, at: real)
      requires Valid()
      modifies Repr
      ensures Valid() && fresh(Repr - old(Repr))
      ensures View() == Record(old(View()), provider, Succeeded(at), failureThreshold)
    {
      hide OnSuccess, OnFailure;
      var state := StateOf(provider);
      label Found:
      assert View()[provider] == HealthSpec.Lookup(old(View()), provider);
      state.Success(at);
      OneChanged@Found(provider);
    }

    method Failure(provider: string, at: real, openAt: real)
      requires Valid()
      modifies Repr
      ensures Valid() && fresh(Repr - old(Repr))
      ensures View() == Record(old(View()), provider, Failed(at, openAt), failureThreshold)
    {
      hide OnSuccess, OnFailure;
      var state := StateOf(provider);
      label Found:
      assert View()[provider] == HealthSpec.Lookup(old(View()), provider);
      state.Failure(at, openAt, failureThreshold);
      OneChanged@Found(provider);
    }

    method Snapshot(now: real) returns (report: map<string, Report>)
      requires Valid()
      ensures report == map p | p in View() :: ReportOf(View()[p], now, cooldown)
    {
      report := map p | p in states :: ReportOf(states[p].View(), now, cooldown);
    }
  }
}
