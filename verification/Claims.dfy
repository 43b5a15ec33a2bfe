/** The atomic stock claim script and the decoding of its reply (src/handlers/stat/hot.rs:22-50, 142-190, 222-230). */
module Claims {
  import opened Prelude
  import opened Sums

  /** The two Redis keys of one item: absent stock is `None`. */
  datatype Keys = Keys(stock: Option<int>, users: set<string>)

  /** One call; an absent initial stock is passed as -1. As numbers, Lua keeps integers below 2^53 exact. */
  datatype Call = Call(userKey: string, initialStock: Option<Stock>)

  const LUA_EXACT: int := 0x20_0000_0000_0000

  type Stock = n: int | -LUA_EXACT < n < LUA_EXACT

  datatype Reply = Reply(code: int, value: int)

  const NO_KEYS := Keys(None, {})

  function Argument(call: Call): int
  {
    if call.initialStock.Some? then call.initialStock.value else -1
  }

  /** The nearest multiple of `unit`, the even one of two equally near. */
  function RoundTo(n: nat, unit: nat): int
    requires unit > 0
  {
    var q, rest := n / unit, n % unit;
    if 2 * rest < unit || (2 * rest == unit && q % 2 == 0) then q * unit else (q + 1) * unit
  }

  /** `tonumber(tostring(n))`: Lua 5.1 prints fourteen significant digits. */
  function Printed(n: nat): int
    requires n < LUA_EXACT
  {
    if n < 100_000_000_000_000 then n
    else if n < 1_000_000_000_000_000 then RoundTo(n, 10)
    else RoundTo(n, 100)
  }

  /** The stock the script goes on with: what is stored, or else a usable initial stock. */
  function StockFor(keys: Keys, call: Call): Option<int>
  {
    if keys.stock.Some? then keys.stock else if Argument(call) >= 0 then Some(Argument(call)) else None
  }

  /** The keys after the script. */
  function Claimed(keys: Keys, call: Call): Keys
  {
    var stock := StockFor(keys, call);
    if stock == None || call.userKey in keys.users || stock.value <= 0 then Keys(stock, keys.users)
    else Keys(Some(stock.value - 1), keys.users + {call.userKey})
  }

  /** A duplicate that finds users but no stock is told the printed initial stock, which may be rounded. */
  function ReplyTo(keys: Keys, call: Call): Reply
  {
    var stock := StockFor(keys, call);
    if stock == None then Reply(0, -1)
    else if call.userKey in keys.users then Reply(2, if keys.stock.Some? then stock.value else Printed(stock.value))
    else if stock.value <= 0 then Reply(0, stock.value)
    else Reply(1, stock.value - 1)
  }

  /** The script on the store, command by command; Redis runs it as one step. */
  class Store {
    var stock: Option<int>
    var users: set<string>

    ghost function Value(): Keys
      reads this
    {
      Keys(stock, users)
    }

    constructor ()
      ensures Value() == NO_KEYS
    {
      stock, users := None, {};
    }

    method Eval(call: Call) returns (reply: Reply)
      modifies this
      ensures Value() == Claimed(old(Value()), call)
      ensures reply == ReplyTo(old(Value()), call)
    {
      var initialStock := Argument(call);
      var currentStock := stock;
      if currentStock == None {
        if initialStock >= 0 {
          stock := Some(initialStock);
          currentStock := Some(Printed(initialStock));
        } else {
          return Reply(0, -1);
        }
      }
      if call.userKey in users {
        return Reply(2, currentStock.value);
      }
      var left := if stock.Some? then stock.value else -1;
      if left <= 0 {
        return Reply(0, left);
      }
      stock := Some(left - 1);
      users := users + {call.userKey};
      return Reply(1, left - 1);
    }
  }

  /** Printing gives the nearest number of fourteen digits, `q` followed by a zero or two: the one with an
      even `q` if two are equally near. */
  lemma PrintedIsNearest(n: nat) returns (q: nat)
    requires n < LUA_EXACT
    ensures n < 100_000_000_000_000 ==> Printed(n) == n
    ensures n >= 100_000_000_000_000 ==>
              var unit := if n < 1_000_000_000_000_000 then 10 else 100;
              && Printed(n) == q * unit && -unit <= 2 * (q * unit - n) <= unit
              && (2 * (q * unit - n) == unit || 2 * (q * unit - n) == -unit ==> q % 2 == 0)
  {
    if n < 1_000_000_000_000_000 {
      q := ToTens(n);
    } else {
      q := ToHundreds(n);
    }
  }

  lemma ToTens(n: nat) returns (q: nat)
    ensures RoundTo(n, 10) == q * 10 && -10 <= 2 * (q * 10 - n) <= 10
    ensures 2 * (q * 10 - n) == 10 || 2 * (q * 10 - n) == -10 ==> q % 2 == 0
  {
    var d, rest := n / 10, n % 10;
    assert n == d * 10 + rest && 0 <= rest < 10;
    q := if 2 * rest < 10 || (2 * rest == 10 && d % 2 == 0) then d else d + 1;
  }

  lemma ToHundreds(n: nat) returns (q: nat)
    ensures RoundTo(n, 100) == q * 100 && -100 <= 2 * (q * 100 - n) <= 100
    ensures 2 * (q * 100 - n) == 100 || 2 * (q * 100 - n) == -100 ==> q % 2 == 0
  {
    var d, rest := n / 100, n % 100;
    assert n == d * 100 + rest && 0 <= rest < 100;
    q := if 2 * rest < 100 || (2 * rest == 100 && d % 2 == 0) then d else d + 1;
  }

  // ----- The response -----

  datatype ClaimResult = ClaimResult(applied: bool, duplicate: bool, remainingStock: int)

  function Decode(reply: Reply): ClaimResult
  {
    ClaimResult(reply.code == 1, reply.code == 2, reply.value)
  }

  const OK := 200
  const CONFLICT := 409
  const BAD_REQUEST := 400

  function StatusCode(result: ClaimResult): int
  {
    if result.applied then OK else if result.duplicate then CONFLICT else BAD_REQUEST
  }

  // ----- Runs -----

  /** The keys after a run of calls that starts without keys. */
  function After(calls: seq<Call>): Keys
  {
    if calls == [] then NO_KEYS else Claimed(After(calls[..|calls| - 1]), calls[|calls| - 1])
  }

  /** What the caller of call `j` is answered. */
  function Answer(calls: seq<Call>, j: nat): ClaimResult
    requires j < |calls|
  {
    Decode(ReplyTo(After(calls[..j]), calls[j]))
  }

  function Applied(calls: seq<Call>): nat
  {
    if calls == [] then 0
    else Applied(calls[..|calls| - 1]) + if Answer(calls, |calls| - 1).applied then 1 else 0
  }

  /** The call brings no usable initial stock. */
  predicate BringsNone(call: Call)
  {
    call.initialStock.None? || call.initialStock.value < 0
  }

  /** Call `i` is the first that brings an initial stock, and brings `n`. */
  predicate Initialises(calls: seq<Call>, i: nat, n: nat)
  {
    && i < |calls| && n < LUA_EXACT && calls[i].initialStock == Some(n)
    && (forall k :: 0 <= k < i ==> BringsNone(calls[k]))
  }

  /** The users calling in positions i, …, j - 1. */
  function Callers(calls: seq<Call>, i: nat, j: nat): set<string>
    requires i <= j <= |calls|
  {
    set k | i <= k < j :: calls[k].userKey
  }

  function Min(a: nat, b: nat): nat
  {
    if a <= b then a else b
  }

  lemma {:induction false} NothingBefore(calls: seq<Call>)
    requires forall k :: 0 <= k < |calls| ==> BringsNone(calls[k])
    ensures After(calls) == NO_KEYS && Applied(calls) == 0
  {
    if calls != [] {
      NothingBefore(calls[..|calls| - 1]);
      var last := |calls| - 1;
      assert calls[..last] == calls[..|calls| - 1];
    }
  }

  /** Until some call brings a stock, if one ever does, every claim is refused with remaining stock -1 and
      nothing is stored. */
  lemma RefusedBeforeStock(calls: seq<Call>, j: nat)
    requires j < |calls|
    requires forall k :: 0 <= k <= j ==> calls[k].initialStock.None? || calls[k].initialStock.value < 0
    ensures Answer(calls, j) == ClaimResult(false, false, -1) && StatusCode(Answer(calls, j)) == 400
    ensures After(calls[..j + 1]) == NO_KEYS
  {
    NothingBefore(calls[..j]);
    NothingBefore(calls[..j + 1]);
  }

  /** The first `min(n, distinct)` callers hold what is missing from the stock. */
  ghost predicate Balanced(keys: Keys, n: nat, callers: set<string>)
  {
    && keys.users <= callers
    && |keys.users| == Min(n, |callers|)
    && keys.stock == Some(n - |keys.users|)
  }

  /** One call on a balanced store. */
  lemma BalancedStep(keys: Keys, n: nat, callers: set<string>, call: Call)
    requires Balanced(keys, n, callers)
    ensures Balanced(Claimed(keys, call), n, callers + {call.userKey})
    ensures ReplyTo(keys, call).code == 1 <==> call.userKey !in callers && |callers| < n
    ensures Claimed(keys, call).users
         == if ReplyTo(keys, call).code == 1 then keys.users + {call.userKey} else keys.users
  {
    var u := call.userKey;
    if |keys.users| < n {
      SmallSubset(keys.users, callers);
    }
    if u in callers {
      assert callers + {u} == callers;
    }
  }

  lemma CallersGrow(calls: seq<Call>, i: nat, j: nat)
    requires i <= j < |calls|
    ensures Callers(calls, i, j + 1) == Callers(calls, i, j) + {calls[j].userKey}
    ensures Callers(calls, i, i) == {}
  {
  }

  lemma AfterNext(calls: seq<Call>, j: nat)
    requires j < |calls|
    ensures After(calls[..j + 1]) == Claimed(After(calls[..j]), calls[j])
    ensures Applied(calls[..j + 1]) == Applied(calls[..j]) + if Answer(calls, j).applied then 1 else 0
  {
    assert calls[..j + 1][..j] == calls[..j];
  }

  /** The call that sets the stock finds no users, as a store that was always balanced. */
  lemma InitialisingCall(calls: seq<Call>, i: nat, n: nat)
    requires Initialises(calls, i, n)
    ensures After(calls[..i]) == NO_KEYS && Applied(calls[..i]) == 0
    ensures ReplyTo(NO_KEYS, calls[i]) == ReplyTo(Keys(Some(n), {}), calls[i])
    ensures Claimed(NO_KEYS, calls[i]) == Claimed(Keys(Some(n), {}), calls[i])
  {
    NothingBefore(calls[..i]);
  }

  /** After each call from the initialising one on, the store is balanced and its users are the applied claims. */
  lemma {:induction false} StaysBalanced(calls: seq<Call>, i: nat, n: nat, j: nat)
    requires Initialises(calls, i, n) && i <= j < |calls|
    ensures Balanced(After(calls[..j + 1]), n, Callers(calls, i, j + 1))
    ensures Applied(calls[..j + 1]) == |After(calls[..j + 1]).users|
    ensures Answer(calls, j).applied <==> calls[j].userKey !in Callers(calls, i, j) && |Callers(calls, i, j)| < n
    decreases j
  {
    AfterNext(calls, j);
    CallersGrow(calls, i, j);
    var keys := After(calls[..j]);
    if j == i {
      InitialisingCall(calls, i, n);
      BalancedStep(Keys(Some(n), {}), n, {}, calls[j]);
    } else {
      StaysBalanced(calls, i, n, j - 1);
      BalancedStep(keys, n, Callers(calls, i, j), calls[j]);
    }
  }

  /** The claim law over every run: from the call that sets the stock to `n` on, stock and users always
      add up to `n`, and exactly the first `n` distinct callers are served; who calls again is served no
      second time, whatever initial stock later calls bring. */
  lemma ClaimLaw(calls: seq<Call>, i: nat, n: nat, j: nat)
    requires Initialises(calls, i, n) && i <= j < |calls|
    ensures var keys, callers := After(calls[..j + 1]), Callers(calls, i, j + 1);
            && keys.stock.Some? && keys.stock.value >= 0
            && keys.stock.value + |keys.users| == n
            && Applied(calls[..j + 1]) == |keys.users| == Min(n, |callers|)
    ensures StatusCode(Answer(calls, j)) == 200 <==>
              calls[j].userKey !in Callers(calls, i, j) && |Callers(calls, i, j)| < n
  {
    StaysBalanced(calls, i, n, j);
  }

  // ----- Every run, with or without a stock -----

  lemma ClaimRecordsUser(keys: Keys, call: Call)
    ensures Claimed(keys, call).users
         == if ReplyTo(keys, call).code == 1 then keys.users + {call.userKey} else keys.users
    ensures ReplyTo(keys, call).code == 1 ==> call.userKey !in keys.users
  {
  }

  /** One of the first `j` calls was by this user and was applied. */
  ghost predicate Served(calls: seq<Call>, j: nat, u: string)
    requires j <= |calls|
  {
    exists k :: 0 <= k < j && calls[k].userKey == u && Answer(calls, k).applied
  }

  lemma ServedNext(calls: seq<Call>, j: nat, u: string)
    requires j < |calls|
    ensures Served(calls, j + 1, u) <==> Served(calls, j, u) || (calls[j].userKey == u && Answer(calls, j).applied)
    ensures !Served(calls, 0, u)
  {
  }

  /** The recorded users are those with an applied claim, and there are none without a stock. */
  lemma {:induction false} UsersWereServed(calls: seq<Call>, j: nat, u: string)
    requires j <= |calls|
    ensures u in After(calls[..j]).users <==> Served(calls, j, u)
    ensures After(calls[..j]).stock == None ==> After(calls[..j]).users == {}
    decreases j
  {
    if j > 0 {
      UsersWereServed(calls, j - 1, u);
      AfterNext(calls, j - 1);
      ClaimRecordsUser(After(calls[..j - 1]), calls[j - 1]);
      ServedNext(calls, j - 1, u);
    }
  }

  /** Each user is served at most once. */
  lemma ServedAtMostOnce(calls: seq<Call>, j: nat, k: nat)
    requires j < k < |calls| && calls[j].userKey == calls[k].userKey
    ensures !(Answer(calls, j).applied && Answer(calls, k).applied)
  {
    UsersWereServed(calls, k, calls[k].userKey);
    ClaimRecordsUser(After(calls[..k]), calls[k]);
  }

  lemma ReplyWithStock(keys: Keys, call: Call)
    requires keys.stock == None ==> keys.users == {}
    ensures StatusCode(Decode(ReplyTo(keys, call))) == 409 <==> call.userKey in keys.users
    ensures Claimed(keys, call).stock == None ==> ReplyTo(keys, call).value == -1
    ensures Claimed(keys, call).stock.Some? ==> ReplyTo(keys, call).value == Claimed(keys, call).stock.value
  {
  }

  /** A caller is told of a duplicate exactly when an earlier claim of its own was applied, and is told the
      stock that is left, or -1 when none was ever set. */
  lemma ConflictMeansServed(calls: seq<Call>, j: nat)
    requires j < |calls|
    ensures StatusCode(Answer(calls, j)) == 409 <==> Served(calls, j, calls[j].userKey)
    ensures var left := After(calls[..j + 1]).stock;
            Answer(calls, j).remainingStock == if left.Some? then left.value else -1
  {
    AfterNext(calls, j);
    UsersWereServed(calls, j, calls[j].userKey);
    ReplyWithStock(After(calls[..j]), calls[j]);
  }

  /** On keys that no run of calls leads to, users without a stock, a duplicate is told the stock it sets if
      and only if fourteen digits suffice to print it. */
  lemma DuplicateIsToldStockIffPrintable(users: set<string>, call: Call)
    requires call.userKey in users && call.initialStock.Some? && call.initialStock.value >= 0
    ensures var n, keys := call.initialStock.value, Keys(None, users);
            (Some(ReplyTo(keys, call).value) == Claimed(keys, call).stock <==>
             n < 100_000_000_000_000 || (if n < 1_000_000_000_000_000 then n % 10 == 0 else n % 100 == 0))
  {
  }
}
