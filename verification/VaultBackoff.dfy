/** The database provider: where the connection string comes from, and when the vault may be asked. */
module VaultBackoff {
  import opened Basics

  datatype UrlSource = Environment | KeyVault | Unresolved

  /** What the provider remembers. `factory` is the session factory, named by the URL it was built for. */
  datatype Provider = Provider(factory: Option<string>, source: UrlSource, lastError: Option<string>, retryNotBefore: real)

  datatype Decision = Built(provider: Provider) | BackOff(reason: string) | AskVault

  function Fresh(): Provider {
    Provider(None, Unresolved, None, 0.0)
  }

  /** `_resolve_url` up to its await: the environment wins, then the cooldown, then the vault. */
  function Resolve(d: Provider, environment: Option<string>, now: real): Decision {
    if environment.Some? then
      Built(d.(factory := environment, source := Environment, lastError := None))
    else if now < d.retryNotBefore then
      BackOff(if d.lastError.Some? then d.lastError.value else "the connection string could not be read")
    else AskVault
  }

  function AfterSecret(d: Provider, url: string): Provider {
    Provider(Some(url), KeyVault, None, 0.0)
  }

  function AfterFailure(d: Provider, reason: string, now: real, cooldown: real): Provider {
    d.(lastError := Some(reason), retryNotBefore := now + cooldown)
  }

  /** A failed read: when it ended and what it said. */
  datatype Failure = Failure(at: real, reason: string)

  class Database {
    const cooldown: real
    var factory: Option<string>
    var source: UrlSource
    var lastError: Option<string>
    var retryNotBefore: real

    /** The last read, if it failed. */
    ghost var failure: Option<Failure>

    ghost predicate Valid()
      reads this
    {
      match failure
      case None => retryNotBefore == 0.0
      case Some(f) => retryNotBefore == f.at + cooldown && (factory.None? ==> lastError == Some(f.reason))
    }

    function View(): Provider
      reads this
    {
      Provider(factory, source, lastError, retryNotBefore)
    }

    constructor (cooldown: real)
      ensures Valid() && this.cooldown == cooldown && View() == Fresh() && failure.None?
    {
      this.cooldown := cooldown;
      factory, source, lastError, retryNotBefore := None, Unresolved, None, 0.0;
      failure := None;
    }

    /**
     * Called with nothing resolved yet. The environment always wins; without it, the vault is asked exactly when no
     * failed read is less than a cooldown old, and otherwise the caller is told that read's reason.
     */
    method ResolveUrl(environment: Option<string>, now: real) returns (r: Decision)
      requires Valid() && factory.None?
      modifies this`factory, this`source, this`lastError
      ensures Valid()
      ensures r == Resolve(old(View()), environment, now)
      ensures r.Built? ==> environment.Some? && factory == environment && View() == r.provider
      ensures !r.Built? ==> environment.None? && View() == old(View())
      ensures environment.None? && failure.Some? ==>
                r == if now < failure.value.at + cooldown then BackOff(failure.value.reason) else AskVault
      ensures environment.None? && failure.None? && now >= 0.0 ==> r.AskVault?
    {
      if environment.Some? {
        source := Environment;
        lastError := None;
        factory := environment;
        return Built(View());
      }
      if now < retryNotBefore {
        return BackOff(if lastError.Some? then lastError.value else "the connection string could not be read");
      }
      r := AskVault;
    }

    method SecretRead(url: string)
      modifies this
      ensures Valid() && failure.None?
      ensures View() == AfterSecret(old(View()), url)
    {
      source := KeyVault;
      lastError := None;
      retryNotBefore := 0.0;
      factory := Some(url);
      failure := None;
    }

    /** Until the cooldown is over, whoever asks without an environment is told this reason and the vault is left alone. */
    method VaultFailed(reason: string, now: real)
      modifies this`lastError, this`retryNotBefore, this`failure
      ensures Valid() && failure == Some(Failure(now, reason))
      ensures View() == AfterFailure(old(View()), reason, now, cooldown)
      ensures forall later ::
                Resolve(View(), None, later) == if later < now + cooldown then BackOff(reason) else AskVault
    {
      lastError := Some(reason);
      retryNotBefore := now + cooldown;
      failure := Some(Failure(now, reason));
    }
  }
}
