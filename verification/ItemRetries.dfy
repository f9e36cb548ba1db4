/**
 * The item loop of the Exchange migrator over the Graph client: the tries that the migrator's model is
 * given are those the client's request loop produces.
 */
module ItemRetries {
  import opened Jobs
  import opened Replies
  import Client = GraphClient
  import Mail = Exchange

  function StatusOf(kind: Client.Kind): Status {
    match kind
    case Auth => AuthExpired
    case Permission => PermissionRevoked
    case Quota => QuotaExceeded
    case Plain => Failed
  }

  /** One `import_item` as the item loop sees it. */
  function AsAttempt(r: Client.Reply): Attempt {
    match r
    case Ok(_) => Succeeded
    case Err(TokenFailed) => Unexpected
    case Err(ThrottledError(_)) => Transient(false)
    case Err(GraphError(kind)) =>
      match kind
      case Auth => Transient(true)
      case Plain => Transient(false)
      case _ => Fatal(StatusOf(kind))
  }

  function Attempts(c: Client.Config, tries: nat -> Client.ImportTry): nat -> Attempt {
    (k: nat) => AsAttempt(Client.ItemReply(c, tries(k)))
  }

  /** The item loop ends as the client's retries settle it. */
  predicate Agrees(r: Client.ImportResult, one: Mail.ImportResult) {
    match r
    case Imported => one.ok && one.exit == Go
    case Skipped => !one.ok && one.exit == Go
    case Raised(JobFatal) => one.exit in {Raised(Graph(PermissionRevoked)), Raised(Graph(QuotaExceeded))}
    case Raised(AuthFailed) => one.exit == Raised(Graph(AuthExpired))
    case Raised(_) => one.exit == Raised(Other)
  }

  /** After `k` tries worth retrying, the loop still ends as its last try settles it. */
  lemma {:induction false} FateFrom(s: Mail.State, c: Mail.Settings, item: Mail.Id, dst: Mail.Id, config: Client.Config,
                                    tries: nat -> Client.ImportTry, attempts: nat, r: Client.ImportResult, k: nat,
                                    auth: bool)
    requires Client.Settled(config, tries, c.maxRetries, attempts, r) && k < attempts
    ensures Agrees(r, Mail.ImportOne(s, c, item, dst, Attempts(config, tries), k, auth))
    decreases attempts - k
  {
    var reply := Client.ItemReply(config, tries(k));
    if k + 1 < attempts {
      assert AsAttempt(reply).Transient?;
      FateFrom(s, c, item, dst, config, tries, attempts, r, k + 1, AsAttempt(reply).auth);
    } else {
      LastTry(s, c, item, dst, config, tries, k, r, auth);
    }
  }

  lemma LastTry(s: Mail.State, c: Mail.Settings, item: Mail.Id, dst: Mail.Id, config: Client.Config,
                tries: nat -> Client.ImportTry, k: nat, r: Client.ImportResult, auth: bool)
    requires Client.Settled(config, tries, c.maxRetries, k + 1, r)
    ensures Agrees(r, Mail.ImportOne(s, c, item, dst, Attempts(config, tries), k, auth))
  {
    var reply := Client.ItemReply(config, tries(k));
    assert Attempts(config, tries)(k) == AsAttempt(reply);
    if AsAttempt(reply).Transient? {
      assert k == c.maxRetries;
      assert AsAttempt(reply).auth <==> Client.Classified(reply.error).AuthFailed?;
    }
  }

  /** The migrator's item loop and the bounded retries over the client come to the same end. */
  lemma SameFate(s: Mail.State, c: Mail.Settings, item: Mail.Id, dst: Mail.Id, config: Client.Config,
                 tries: nat -> Client.ImportTry, attempts: nat, r: Client.ImportResult)
    requires Client.Settled(config, tries, c.maxRetries, attempts, r)
    ensures Agrees(r, Mail.ImportOne(s, c, item, dst, Attempts(config, tries), 0, false))
  {
    if attempts > 0 {
      FateFrom(s, c, item, dst, config, tries, attempts, r, 0, false);
    }
  }
}
