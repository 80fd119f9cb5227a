/** The wallet service and its three repositories: internal/wallet and the wallet half of kit/db/mock_client.go. */
module Wallets {
  import opened Common

  type Balances = map<string, int>

  /** The error values that reach the callers of the wallet service. */
  datatype Outcome = Ok | Invalid | InvalidAmount | InsufficientFunds | Conflict | Internal

  function ErrorText(o: Outcome): string {
    match o
    case Ok => ""
    case Invalid => "db: invalid\ninvalid request"
    case InvalidAmount => "invalid request"
    case InsufficientFunds => "insufficient funds"
    case Conflict => "db: conflict"
    case Internal => "db: internal"
  }

  /**
   How the write of one statement ends: it is done; it fails and nothing changed; or it fails after the
   balance changed, as the mock client and the file repository do when persisting fails.
   */
  datatype Write = Done | FailedBefore | FailedAfter

  function Failure(w: Write): Outcome {
    if w.Done? then Ok else Internal
  }

  function Put(m: Balances, user: string, balance: int, w: Write): Balances {
    if w.FailedBefore? then m else m[user := balance]
  }

  predicate ValidMove(user: string, amount: int) {
    user != "" && amount > 0
  }

  /** `Credit` and `Refund`: read, add, write. */
  function Added(m: Balances, user: string, amount: int, w: Write): Balances {
    if ValidMove(user, amount) then Put(m, user, Wrap64(BalanceOf(m, user) + amount), w) else m
  }

  function AddOutcome(user: string, amount: int, w: Write): Outcome {
    if ValidMove(user, amount) then Failure(w) else Invalid
  }

  /** `Debit`: one conditional update. */
  function Debited(m: Balances, user: string, amount: int, w: Write): Balances {
    if ValidMove(user, amount) && BalanceOf(m, user) >= amount then Put(m, user, BalanceOf(m, user) - amount, w) else m
  }

  function DebitOutcome(m: Balances, user: string, amount: int, w: Write): Outcome {
    if !ValidMove(user, amount) then Invalid
    else if BalanceOf(m, user) < amount then InsufficientFunds
    else Failure(w)
  }

  function WriteOf(ioOk: bool): Write {
    if ioOk then Done else FailedAfter
  }

  class InMemoryRepository {
    var balances: Balances

    constructor (balances: Balances)
      ensures this.balances == balances
    {
      this.balances := balances;
    }

    method GetBalance(user: string) returns (balance: int)
      ensures balance == BalanceOf(balances, user)
    {
      balance := BalanceOf(balances, user);
    }

    method SetBalance(user: string, amount: int) returns (err: Outcome)
      modifies this
      ensures err == Ok && balances == old(balances)[user := amount]
    {
      balances := balances[user := amount];
      err := Ok;
    }

    method DebitIfSufficientFunds(user: string, amount: int) returns (err: Outcome)
      modifies this
      ensures err == if amount <= 0 then InvalidAmount
                     else if old(BalanceOf(balances, user)) < amount then InsufficientFunds else Ok
      ensures balances
              == if err == Ok then old(balances)[user := old(BalanceOf(balances, user)) - amount] else old(balances)
    {
      var cur := BalanceOf(balances, user);
      if amount <= 0 {
        return InvalidAmount;
      }
      if cur < amount {
        return InsufficientFunds;
      }
      balances := balances[user := cur - amount];
      err := Ok;
    }
  }

  /** What a path holds: no file, an empty file, the encoding of a balance map, or something else. */
  datatype Disk = Missing | Empty | Encoded(balances: Balances) | Garbage

  class FileRepository {
    var balances: Balances
    var disk: Disk

    constructor (disk: Disk)
      ensures this.disk == disk && balances == map[]
    {
      this.disk, balances := disk, map[];
    }

    /** Reads the file into memory; a missing file is created. `readOk` is how reading goes, `ioOk` writing. */
    method Load(readOk: bool, ioOk: bool) returns (err: Outcome)
      modifies this
      ensures !readOk && !old(disk).Missing? ==> err == Internal && balances == old(balances) && disk == old(disk)
      ensures readOk && old(disk).Encoded? ==>
                err == Ok && disk == old(disk) && balances == old(balances) + old(disk).balances
      ensures old(disk).Missing? ==>
                balances == old(balances) && err == Failure(WriteOf(ioOk)) && (ioOk ==> disk == Encoded(balances))
      ensures readOk && old(disk).Empty? ==> err == Ok && balances == old(balances) && disk == old(disk)
      ensures readOk && old(disk).Garbage? ==> err == Internal && disk == old(disk)
    {
      if !readOk && !disk.Missing? {
        return Internal;
      }
      match disk {
        case Missing => err := Persist(ioOk);
        case Empty => err := Ok;
        case Encoded(m) => balances := balances + m; err := Ok;
        case Garbage => err := Internal;
      }
    }

    /** Writes the whole map to a temporary file and renames it over the path. */
    method Persist(ioOk: bool) returns (err: Outcome)
      modifies this`disk
      ensures err == Failure(WriteOf(ioOk))
      ensures disk == if ioOk then Encoded(balances) else old(disk)
    {
      if ioOk {
        disk := Encoded(balances);
        err := Ok;
      } else {
        err := Internal;
      }
    }

    method GetBalance(user: string) returns (balance: int)
      ensures balance == BalanceOf(balances, user)
    {
      balance := BalanceOf(balances, user);
    }

    method SetBalance(user: string, amount: int, ioOk: bool) returns (err: Outcome)
      modifies this
      ensures err == Failure(WriteOf(ioOk)) && balances == Put(old(balances), user, amount, WriteOf(ioOk))
      ensures disk == if err == Ok then Encoded(balances) else old(disk)
    {
      balances := balances[user := amount];
      err := Persist(ioOk);
    }

    method DebitIfSufficientFunds(user: string, amount: int, ioOk: bool) returns (err: Outcome)
      modifies this
      ensures err == if amount <= 0 then InvalidAmount
                     else if old(BalanceOf(balances, user)) < amount then InsufficientFunds
                     else Failure(WriteOf(ioOk))
      ensures balances == if amount > 0 && old(BalanceOf(balances, user)) >= amount
                          then old(balances)[user := old(BalanceOf(balances, user)) - amount] else old(balances)
      ensures disk == if err == Ok then Encoded(balances) else old(disk)
    {
      var cur := BalanceOf(balances, user);
      if amount <= 0 {
        return InvalidAmount;
      }
      if cur < amount {
        return InsufficientFunds;
      }
      balances := balances[user := cur - amount];
      err := Persist(ioOk);
    }
  }

  /** The wallet statements of the mock client. */
  class MockClient {
    var wallets: Balances
    const persists: bool        // a persist path was given
    var disk: Disk

    constructor (wallets: Balances, persists: bool, disk: Disk)
      ensures this.wallets == wallets && this.persists == persists && this.disk == disk
    {
      this.wallets, this.persists, this.disk := wallets, persists, disk;
    }

    method PersistWallets(ioOk: bool) returns (err: Outcome)
      modifies this`disk
      ensures err == if persists then Failure(WriteOf(ioOk)) else Ok
      ensures disk == if persists && ioOk then Encoded(wallets) else old(disk)
    {
      err := Ok;
      if persists {
        if ioOk {
          disk := Encoded(wallets);
        } else {
          err := Internal;
        }
      }
    }

    method Upsert(user: string, balance: int, ioOk: bool) returns (err: Outcome)
      modifies this
      ensures wallets == old(wallets)[user := balance]
      ensures err == if persists then Failure(WriteOf(ioOk)) else Ok
      ensures disk == if persists && ioOk then Encoded(wallets) else old(disk)
    {
      wallets := wallets[user := balance];
      err := PersistWallets(ioOk);
    }

    method DebitWhereAtLeast(amount: int, user: string, least: int, ioOk: bool) returns (err: Outcome)
      modifies this
      ensures err == if old(BalanceOf(wallets, user)) < least then Conflict
                     else if persists then Failure(WriteOf(ioOk)) else Ok
      ensures wallets == if old(BalanceOf(wallets, user)) < least then old(wallets)
                         else old(wallets)[user := Wrap64(old(BalanceOf(wallets, user)) - amount)]
      ensures disk == if err == Ok && persists then Encoded(wallets) else old(disk)
    {
      var cur := BalanceOf(wallets, user);
      if cur < least {
        return Conflict;
      }
      wallets := wallets[user := Wrap64(cur - amount)];
      err := PersistWallets(ioOk);
    }

    /** The row of a user, or not found. */
    method SelectBalance(user: string) returns (row: Option<int>)
      ensures row == if user in wallets then Some(wallets[user]) else None
    {
      row := if user in wallets then Some(wallets[user]) else None;
    }
  }

  class SQLRepository {
    const db: MockClient

    constructor (db: MockClient)
      ensures this.db == db
    {
      this.db := db;
    }

    method GetBalance(user: string) returns (balance: int)
      ensures balance == BalanceOf(db.wallets, user)
    {
      var row := db.SelectBalance(user);
      balance := if row.Some? then row.value else 0;
    }

    method SetBalance(user: string, amount: int, ioOk: bool) returns (err: Outcome)
      modifies db
      ensures db.wallets == old(db.wallets)[user := amount]
      ensures err == if db.persists then Failure(WriteOf(ioOk)) else Ok
      ensures db.disk == if err == Ok && db.persists then Encoded(db.wallets) else old(db.disk)
    {
      err := db.Upsert(user, amount, ioOk);
    }

    method DebitIfSufficientFunds(user: string, amount: int, ioOk: bool) returns (err: Outcome)
      modifies db
      ensures err == if old(BalanceOf(db.wallets, user)) < amount then InsufficientFunds
                     else if db.persists then Failure(WriteOf(ioOk)) else Ok
      ensures db.wallets == if old(BalanceOf(db.wallets, user)) < amount then old(db.wallets)
                            else old(db.wallets)[user := Wrap64(old(BalanceOf(db.wallets, user)) - amount)]
      ensures db.disk == if err == Ok && db.persists then Encoded(db.wallets) else old(db.disk)
    {
      err := db.DebitWhereAtLeast(amount, user, amount, ioOk);
      if err == Conflict {
        err := InsufficientFunds;
      }
    }
  }

  /** The repository interface: one of its three implementations. */
  datatype Repository = InMemory(memory: InMemoryRepository) | InFile(file: FileRepository) | InSQL(sql: SQLRepository)
  {
    ghost function Objects(): set<object> {
      match this
      case InMemory(r) => {r}
      case InFile(r) => {r}
      case InSQL(r) => {r.db}
    }

    ghost function Contents(): Balances
      reads Objects()
    {
      match this
      case InMemory(r) => r.balances
      case InFile(r) => r.balances
      case InSQL(r) => r.db.wallets
    }

    /** It keeps its balances in a file. */
    predicate Persists() {
      InFile? || (InSQL? && sql.db.persists)
    }

    /** What that file holds. */
    ghost function Saved(): Disk
      reads Objects()
    {
      match this
      case InMemory(_) => Missing
      case InFile(r) => r.disk
      case InSQL(r) => r.db.disk
    }

    /** How a statement of this repository ends when its input or output goes as `ioOk` says. */
    function Ends(ioOk: bool): Write {
      if InMemory? || (InSQL? && !sql.db.persists) then Done else WriteOf(ioOk)
    }

    function EndsOf(ioOks: seq<bool>): seq<Write> {
      seq(|ioOks|, k requires 0 <= k < |ioOks| => Ends(ioOks[k]))
    }
  }

  ghost predicate AllInt64(m: Balances) {
    forall user :: IsInt64(BalanceOf(m, user))
  }

  class Service {
    const repo: Repository

    constructor (repo: Repository)
      ensures this.repo == repo
    {
      this.repo := repo;
    }

    method GetBalance(user: string) returns (balance: int)
      ensures balance == BalanceOf(repo.Contents(), user)
    {
      match repo {
        case InMemory(r) => balance := r.GetBalance(user);
        case InFile(r) => balance := r.GetBalance(user);
        case InSQL(r) => balance := r.GetBalance(user);
      }
    }

    method SetBalance(user: string, amount: int, ioOk: bool) returns (err: Outcome)
      modifies repo.Objects()
      ensures err == Failure(repo.Ends(ioOk))
              && repo.Contents() == Put(old(repo.Contents()), user, amount, repo.Ends(ioOk))
      ensures repo.Persists() ==> repo.Saved() == if err == Ok then Encoded(repo.Contents()) else old(repo.Saved())
    {
      match repo {
        case InMemory(r) => err := r.SetBalance(user, amount);
        case InFile(r) => err := r.SetBalance(user, amount, ioOk);
        case InSQL(r) => err := r.SetBalance(user, amount, ioOk);
      }
    }

    /** `Credit` and `Refund`, which differ only in logging and metrics. */
    method Add(user: string, amount: int, ioOk: bool) returns (err: Outcome)
      modifies repo.Objects()
      ensures err == AddOutcome(user, amount, repo.Ends(ioOk))
      ensures err == if user == "" || amount <= 0 then Invalid else if repo.Ends(ioOk).Done? then Ok else Internal
      ensures repo.Contents() == Added(old(repo.Contents()), user, amount, repo.Ends(ioOk))
      ensures repo.Persists() ==> repo.Saved() == if err == Ok then Encoded(repo.Contents()) else old(repo.Saved())
    {
      if user == "" || amount <= 0 {
        return Invalid;
      }
      var current := GetBalance(user);
      err := SetBalance(user, Wrap64(current + amount), ioOk);
    }

    method Debit(user: string, amount: int, ioOk: bool) returns (err: Outcome)
      requires AllInt64(repo.Contents())
      modifies repo.Objects()
      ensures err == DebitOutcome(old(repo.Contents()), user, amount, repo.Ends(ioOk))
      ensures err == if user == "" || amount <= 0 then Invalid
                     else if old(BalanceOf(repo.Contents(), user)) < amount then InsufficientFunds
                     else if repo.Ends(ioOk).Done? then Ok else Internal
      ensures repo.Contents() == Debited(old(repo.Contents()), user, amount, repo.Ends(ioOk))
      ensures repo.Persists() ==> repo.Saved() == if err == Ok then Encoded(repo.Contents()) else old(repo.Saved())
    {
      if user == "" || amount <= 0 {
        return Invalid;
      }
      assert IsInt64(BalanceOf(repo.Contents(), user));
      match repo {
        case InMemory(r) => err := r.DebitIfSufficientFunds(user, amount);
        case InFile(r) => err := r.DebitIfSufficientFunds(user, amount, ioOk);
        case InSQL(r) => err := r.DebitIfSufficientFunds(user, amount, ioOk);
      }
    }

    method Balance(user: string) returns (balance: int, err: Outcome)
      ensures err == if user == "" then Invalid else Ok
      ensures balance == if user == "" then 0 else BalanceOf(repo.Contents(), user)
    {
      if user == "" {
        return 0, Invalid;
      }
      balance := GetBalance(user);
      err := Ok;
    }
  }

  /** A call of the wallet service. */
  datatype Call =
    | Credit(user: string, amount: int)
    | Debit(user: string, amount: int)
    | Refund(user: string, amount: int)

  function BalancesAfter(m: Balances, c: Call, w: Write): Balances {
    if c.Debit? then Debited(m, c.user, c.amount, w) else Added(m, c.user, c.amount, w)
  }

  function OutcomeOf(m: Balances, c: Call, w: Write): Outcome {
    if c.Debit? then DebitOutcome(m, c.user, c.amount, w) else AddOutcome(c.user, c.amount, w)
  }

  /** The balances after the first `n` calls, whose writes end as `writes` says. */
  function BalancesAt(m: Balances, calls: seq<Call>, writes: seq<Write>, n: nat): Balances
    requires n <= |calls| == |writes|
  {
    if n == 0 then m else BalancesAfter(BalancesAt(m, calls, writes, n - 1), calls[n - 1], writes[n - 1])
  }

  /** Each of the first `n` calls returned what it should. */
  predicate Answers(m: Balances, calls: seq<Call>, writes: seq<Write>, outcomes: seq<Outcome>, n: nat)
    requires n <= |calls| == |writes| && n <= |outcomes|
  {
    n == 0 || (Answers(m, calls, writes, outcomes, n - 1)
               && outcomes[n - 1] == OutcomeOf(BalancesAt(m, calls, writes, n - 1), calls[n - 1], writes[n - 1]))
  }

  lemma {:induction false} CallsKeepInt64(m: Balances, c: Call, w: Write)
    requires AllInt64(m)
    ensures AllInt64(BalancesAfter(m, c, w))
  {
    forall user ensures IsInt64(BalanceOf(BalancesAfter(m, c, w), user)) {
      assert IsInt64(BalanceOf(m, user));
      assert IsInt64(BalanceOf(m, c.user));
    }
  }

  /** Later outcomes do not matter. */
  lemma {:induction false} AnswersPrefix(m: Balances, calls: seq<Call>, writes: seq<Write>, a: seq<Outcome>,
                                         b: seq<Outcome>, n: nat)
    requires n <= |calls| == |writes| && n <= |a| && a <= b
    ensures Answers(m, calls, writes, a, n) == Answers(m, calls, writes, b, n)
  {
    if n == 0 {
    } else {
      AnswersPrefix(m, calls, writes, a, b, n - 1);
    }
  }

  /** The last write attempted was done, or none was attempted since the file held what memory holds. */
  function OnDisk(outcomes: seq<Outcome>, before: bool): bool {
    if outcomes == [] then before
    else
      var last := outcomes[|outcomes| - 1];
      if last.Ok? then true else if last.Internal? then false else OnDisk(outcomes[..|outcomes| - 1], before)
  }

  /** One call on a service. */
  method Do(service: Service, call: Call, ioOk: bool) returns (err: Outcome)
    requires AllInt64(service.repo.Contents())
    modifies service.repo.Objects()
    ensures err == OutcomeOf(old(service.repo.Contents()), call, service.repo.Ends(ioOk))
    ensures service.repo.Contents() == BalancesAfter(old(service.repo.Contents()), call, service.repo.Ends(ioOk))
    ensures service.repo.Persists() ==>
              service.repo.Saved() == if err == Ok then Encoded(service.repo.Contents()) else old(service.repo.Saved())
    ensures err != Ok && err != Internal ==> service.repo.Contents() == old(service.repo.Contents())
    ensures AllInt64(service.repo.Contents())
  {
    CallsKeepInt64(service.repo.Contents(), call, service.repo.Ends(ioOk));
    match call {
      case Credit(user, amount) => err := service.Add(user, amount, ioOk);
      case Refund(user, amount) => err := service.Add(user, amount, ioOk);
      case Debit(user, amount) => err := service.Debit(user, amount, ioOk);
    }
  }

  /**
   Any sequence of service calls returns the outcomes, and leaves the balances, that the specification
   gives for the way its writes end, whichever repository is behind the service: when every write
   succeeds, the same for all three. The file holds what memory holds whenever the last write attempted
   was done.
   */
  method RunCalls(service: Service, calls: seq<Call>, ioOks: seq<bool>) returns (outcomes: seq<Outcome>)
    requires AllInt64(service.repo.Contents()) && |ioOks| == |calls|
    modifies service.repo.Objects()
    ensures |outcomes| == |calls|
    ensures Answers(old(service.repo.Contents()), calls, service.repo.EndsOf(ioOks), outcomes, |calls|)
    ensures service.repo.Contents()
            == BalancesAt(old(service.repo.Contents()), calls, service.repo.EndsOf(ioOks), |calls|)
    ensures AllInt64(service.repo.Contents())
    ensures service.repo.Persists()
            && OnDisk(outcomes, old(service.repo.Saved() == Encoded(service.repo.Contents()))) ==>
              service.repo.Saved() == Encoded(service.repo.Contents())
  {
    outcomes := [];
    ghost var start, writes := service.repo.Contents(), service.repo.EndsOf(ioOks);
    ghost var before := service.repo.Saved() == Encoded(start);
    ghost var synced := before;
    var i := 0;
    while i < |calls|
      invariant 0 <= i <= |calls| && |outcomes| == i && AllInt64(service.repo.Contents())
      invariant Answers(start, calls, writes, outcomes, i)
      invariant service.repo.Contents() == BalancesAt(start, calls, writes, i)
      invariant OnDisk(outcomes, before) == synced
      invariant service.repo.Persists() && synced ==> service.repo.Saved() == Encoded(service.repo.Contents())
    {
      var err := Do(service, calls[i], ioOks[i]);
      AnswersPrefix(start, calls, writes, outcomes, outcomes + [err], i);
      assert (outcomes + [err])[..i] == outcomes;
      outcomes := outcomes + [err];
      synced := err.Ok? || (synced && !err.Internal?);
      i := i + 1;
    }
  }

  lemma {:induction false} AnswersAreDetermined(m: Balances, calls: seq<Call>, writes: seq<Write>, a: seq<Outcome>,
                                                b: seq<Outcome>, n: nat)
    requires n <= |calls| == |writes| && n <= |a| && n <= |b|
    requires Answers(m, calls, writes, a, n) && Answers(m, calls, writes, b, n)
    ensures a[..n] == b[..n]
  {
    if n == 0 {
    } else {
      AnswersAreDetermined(m, calls, writes, a, b, n - 1);
      assert a[..n] == a[..n - 1] + [a[n - 1]] && b[..n] == b[..n - 1] + [b[n - 1]];
    }
  }

  /**
   Two services over any two repositories that start with the same balances, every write succeeding, stay
   the same.
   */
  method RunOnBoth(a: Service, b: Service, calls: seq<Call>) returns (fromA: seq<Outcome>, fromB: seq<Outcome>)
    requires a.repo.Objects() !! b.repo.Objects() && AllInt64(a.repo.Contents())
             && a.repo.Contents() == b.repo.Contents()
    modifies a.repo.Objects(), b.repo.Objects()
    ensures fromA == fromB && |fromA| == |calls| && a.repo.Contents() == b.repo.Contents()
  {
    var fine := seq(|calls|, k => true);
    ghost var m, writes := a.repo.Contents(), a.repo.EndsOf(fine);
    assert writes == b.repo.EndsOf(fine);
    fromA := RunCalls(a, calls, fine);
    fromB := RunCalls(b, calls, fine);
    AnswersAreDetermined(m, calls, writes, fromA, fromB, |calls|);
  }

  /**
   A new repository loaded from the file holds the balances in memory, after any sequence of service
   calls, debits included, whose last attempted write was done.
   */
  method ReloadAfterCalls(r: FileRepository, calls: seq<Call>, ioOks: seq<bool>)
    returns (outcomes: seq<Outcome>, reloaded: FileRepository)
    requires AllInt64(r.balances) && |ioOks| == |calls|
    modifies r
    ensures |outcomes| == |calls|
    ensures OnDisk(outcomes, old(r.disk == Encoded(r.balances))) ==>
              reloaded.balances == r.balances && reloaded.disk == r.disk
  {
    var service := new Service(InFile(r));
    outcomes := RunCalls(service, calls, ioOks);
    reloaded := new FileRepository(r.disk);
    var err := reloaded.Load(true, true);
  }

  /** No call ever makes a balance negative, when the exact sums fit. */
  lemma {:induction false} CallsKeepBalancesNonNegative(m: Balances, c: Call, w: Write)
    requires forall user :: 0 <= BalanceOf(m, user) <= MAX_INT64
    requires BalanceOf(m, c.user) + c.amount <= MAX_INT64
    ensures forall user :: 0 <= BalanceOf(BalancesAfter(m, c, w), user) <= MAX_INT64
  {
    forall user ensures 0 <= BalanceOf(BalancesAfter(m, c, w), user) <= MAX_INT64 {
      assert 0 <= BalanceOf(m, user) <= MAX_INT64;
      assert 0 <= BalanceOf(m, c.user) <= MAX_INT64;
    }
  }
}
