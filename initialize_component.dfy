/** The view model behind the "Initialize a New Pool" form: two token slots,
    the swap fee, the tick spacing and the hook address, the canonical
    ordering of the two tokens into a pool key, and the single `initialize`
    write the submit button issues while no other write is loading. */
module InitializeComponent {
  import opened JsString

  type Address = string

  datatype Option<T> = None | Some(value: T)

  /** Token metadata as the token lookup reports it. */
  datatype Token = Token(address: Address, name: string, symbol: string, decimals: nat)

  /** The `data` of one token lookup: absent while it is pending or after it failed. */
  type Lookup = Option<Token>

  /** The pool key handed to the pool manager. */
  datatype PoolKey = PoolKey(currency0: Address, currency1: Address, fee: int, tickSpacing: int, hooks: Address)

  /** The argument list of the `initialize` write: key, initial sqrt price, hook data. */
  datatype InitializeCall = InitializeCall(key: PoolKey, sqrtPriceX96: nat, hookData: string)

  /** The contents of the success notification. */
  datatype Notice = Notice(token0: Address, token1: Address, swapFee: int, tickSpacing: int, hookAddress: Address)

  /** The two slots ordered into (currency0, currency1). */
  datatype TokenPair = TokenPair(currency0: Address, currency1: Address)

  const DEFAULT_SWAP_FEE: int := 3000
  const DEFAULT_TICK_SPACING: int := 60
  /** Initial square-root price: 1.0 in Q64.96 fixed point. */
  const SQRT_PRICE_ONE: nat := 79228162514264337593543950336
  const EMPTY_HOOK_DATA: string := "0x0"

  function Pow2(n: nat): nat {
    if n == 0 then 1 else 2 * Pow2(n - 1)
  }

  lemma {:induction false} Pow2Add(m: nat, n: nat)
    ensures Pow2(m + n) == Pow2(m) * Pow2(n)
  {
    if m > 0 {
      Pow2Add(m - 1, n);
    }
  }

  /** The initial price constant is 2^96, that is, a price of exactly 1. */
  lemma SqrtPriceIsOne()
    ensures SQRT_PRICE_ONE == Pow2(96)
  {
    Pow2Add(32, 64);
    Pow2Add(32, 32);
    assert Pow2(32) == 4294967296 by {
      Pow2Add(16, 16);
      Pow2Add(8, 8);
    }
  }

  // ---- Token pair ordering ----

  /** Order the two slot addresses: the one whose lower-cased form is strictly
      smaller comes first; when neither is, slot 1 comes first. */
  function Canonicalize(a: Address, b: Address): (r: TokenPair)
    ensures multiset{r.currency0, r.currency1} == multiset{a, b}
    ensures LessOrEqual(Lower(r.currency0), Lower(r.currency1))
  {
    LessTotal(Lower(a), Lower(b));
    if Less(Lower(a), Lower(b)) then TokenPair(a, b) else TokenPair(b, a)
  }

  /** Two addresses that differ ignoring case end up in the same pool key
      whichever slot each was in. */
  lemma CanonicalizeSymmetric(a: Address, b: Address)
    requires Lower(a) != Lower(b)
    ensures Canonicalize(a, b) == Canonicalize(b, a)
  {
    LessTotal(Lower(a), Lower(b));
    if Less(Lower(a), Lower(b)) {
      LessAsymmetric(Lower(a), Lower(b));
    }
  }

  /** For addresses that differ ignoring case the order is strict. */
  lemma CanonicalizeStrict(a: Address, b: Address)
    requires Lower(a) != Lower(b)
    ensures var r := Canonicalize(a, b); Less(Lower(r.currency0), Lower(r.currency1))
  {
    LessTotal(Lower(a), Lower(b));
  }

  /** When the addresses are equal ignoring case, both strict comparisons fail
      and the slots come out swapped. */
  lemma CanonicalizeEqualIgnoringCase(a: Address, b: Address)
    requires Lower(a) == Lower(b)
    ensures Canonicalize(a, b) == TokenPair(b, a)
  {
    LessIrreflexive(Lower(a));
  }

  /** The ordering depends on the addresses only through their lower-cased
      forms: ordering the lower-cased addresses gives the lower-cased result. */
  lemma CanonicalizeIgnoresCase(a: Address, b: Address)
    ensures var r := Canonicalize(a, b);
            Canonicalize(Lower(a), Lower(b)) == TokenPair(Lower(r.currency0), Lower(r.currency1))
  {
    LowerIdempotent(a);
    LowerIdempotent(b);
  }

  // ---- The write arguments ----

  /** The arguments `handleInitialize` passes to the `initialize` write for the
      current slot addresses, fee, tick spacing and hook address. */
  function InitializeArgs(address0: Address, address1: Address, fee: int, tickSpacing: int, hooks: Address): (c: InitializeCall)
    ensures multiset{c.key.currency0, c.key.currency1} == multiset{address0, address1}
    ensures LessOrEqual(Lower(c.key.currency0), Lower(c.key.currency1))
    ensures c.key.fee == fee && c.key.tickSpacing == tickSpacing && c.key.hooks == hooks
    ensures c.sqrtPriceX96 == Pow2(96) && c.hookData == "0x0"
  {
    SqrtPriceIsOne();
    var pair := Canonicalize(address0, address1);
    InitializeCall(PoolKey(pair.currency0, pair.currency1, fee, tickSpacing, hooks), SQRT_PRICE_ONE, EMPTY_HOOK_DATA)
  }

  /** Swapping the two slots does not change the write, unless the two
      addresses are equal ignoring case. */
  lemma InitializeArgsSlotOrderIrrelevant(address0: Address, address1: Address, fee: int, tickSpacing: int, hooks: Address)
    requires Lower(address0) != Lower(address1)
    ensures InitializeArgs(address0, address1, fee, tickSpacing, hooks) == InitializeArgs(address1, address0, fee, tickSpacing, hooks)
  {
    CanonicalizeSymmetric(address0, address1);
  }

  /** The success notification for a write echoes exactly what was written. */
  function NoticeFor(c: InitializeCall): (n: Notice)
  {
    Notice(c.key.currency0, c.key.currency1, c.key.fee, c.key.tickSpacing, c.key.hooks)
  }

  // ---- Token lookup ----

  /** `lookup.data ?? BLANK_TOKEN` */
  function DataOrBlank(lookup: Lookup, blank: Token): Token {
    match lookup
    case Some(t) => t
    case None => blank
  }

  /** `tokens[i]?.data ?? BLANK_TOKEN`: the initial contents of slot `i`. */
  function Seed(tokens: seq<Lookup>, i: nat, blank: Token): (t: Token)
    ensures t == blank || (i < |tokens| && tokens[i] == Some(t))
    ensures i < |tokens| && tokens[i].Some? ==> t == tokens[i].value
  {
    if i < |tokens| then DataOrBlank(tokens[i], blank) else blank
  }

  /** The dropdown options of either slot. */
  function Options(tokens: seq<Lookup>, blank: Token): (opts: seq<Token>)
    ensures |opts| == |tokens|
    ensures forall i :: 0 <= i < |tokens| ==> opts[i] == Seed(tokens, i, blank)
  {
    seq(|tokens|, i requires 0 <= i < |tokens| => DataOrBlank(tokens[i], blank))
  }

  /** `token.data?.address === value` */
  predicate Matches(lookup: Lookup, value: Address) {
    lookup.Some? && lookup.value.address == value
  }

  /** The index `tokens.find` stops at, searching from `from` on. */
  function FindIndex(tokens: seq<Lookup>, value: Address, from: nat): (r: Option<nat>)
    requires from <= |tokens|
    ensures r.Some? ==> from <= r.value < |tokens| && Matches(tokens[r.value], value)
    ensures r.Some? ==> forall j :: from <= j < r.value ==> !Matches(tokens[j], value)
    ensures r.None? ==> forall j :: from <= j < |tokens| ==> !Matches(tokens[j], value)
    decreases |tokens| - from
  {
    if from == |tokens| then None
    else if Matches(tokens[from], value) then Some(from)
    else FindIndex(tokens, value, from + 1)
  }

  /** `tokens.find(token => token.data?.address === value)?.data ?? BLANK_TOKEN`:
      the first looked-up token with exactly this address, or the blank token. */
  function Select(tokens: seq<Lookup>, value: Address, blank: Token): (t: Token)
    ensures (forall j :: 0 <= j < |tokens| ==> !Matches(tokens[j], value)) ==> t == blank
    ensures (exists j :: 0 <= j < |tokens| && Matches(tokens[j], value)) ==>
              && t.address == value
              && exists j :: 0 <= j < |tokens| && tokens[j] == Some(t) &&
                             forall k :: 0 <= k < j ==> !Matches(tokens[k], value)
  {
    match FindIndex(tokens, value, 0)
    case Some(j) => tokens[j].value
    case None => blank
  }

  /** Choosing any offered option stores a token with the address that was chosen. */
  lemma SelectOptionKeepsAddress(tokens: seq<Lookup>, blank: Token, i: nat)
    requires i < |tokens|
    ensures var chosen := Options(tokens, blank)[i].address;
            Select(tokens, chosen, blank).address == chosen
  {
    var chosen := Options(tokens, blank)[i].address;
    if tokens[i].Some? {
      assert Matches(tokens[i], chosen);
    }
  }

  // ---- The form ----

  /** The component's state. `loading` is the write capability's loading
      flag and `pending` the write it is waiting for. */
  class InitializeForm {
    var tokens: seq<Lookup>
    const blank: Token
    var currency0: Token
    var currency1: Token
    var swapFee: int
    var tickSpacing: int
    var hookAddress: Address
    var loading: bool
    var pending: Option<InitializeCall>

    ghost predicate Valid()
      reads this
    {
      loading <==> pending.Some?
    }

    /** `disabled={isLoading}` on the submit button. */
    predicate SubmitEnabled()
      reads this
    {
      !loading
    }

    /** The first render: slots seeded from the lookups, default fee and
        tick spacing, the chain's hook contract, nothing loading. */
    constructor (lookups: seq<Lookup>, blankToken: Token, counterHook: Address)
      ensures Valid()
      ensures tokens == lookups && blank == blankToken
      ensures currency0 == Seed(lookups, 0, blankToken) && currency1 == Seed(lookups, 1, blankToken)
      ensures swapFee == DEFAULT_SWAP_FEE && tickSpacing == DEFAULT_TICK_SPACING
      ensures hookAddress == counterHook
      ensures !loading
    {
      tokens := lookups;
      blank := blankToken;
      currency0 := Seed(lookups, 0, blankToken);
      currency1 := Seed(lookups, 1, blankToken);
      swapFee := DEFAULT_SWAP_FEE;
      tickSpacing := DEFAULT_TICK_SPACING;
      hookAddress := counterHook;
      loading := false;
      pending := None;
    }

    /** A later render with new lookup results: the slots keep what they hold. */
    method LookupsChanged(lookups: seq<Lookup>)
      modifies this`tokens
      ensures tokens == lookups
    {
      tokens := lookups;
    }

    /** The "Token 0" dropdown's change handler. */
    method SelectToken0(value: Address)
      modifies this`currency0
      ensures currency0 == Select(tokens, value, blank)
      ensures currency1 == old(currency1)
    {
      currency0 := Select(tokens, value, blank);
    }

    /** The "Token 1" dropdown's change handler. */
    method SelectToken1(value: Address)
      modifies this`currency1
      ensures currency1 == Select(tokens, value, blank)
      ensures currency0 == old(currency0)
    {
      currency1 := Select(tokens, value, blank);
    }

    method SetSwapFee(fee: int)
      modifies this`swapFee
      ensures swapFee == fee
    {
      swapFee := fee;
    }

    method SetTickSpacing(spacing: int)
      modifies this`tickSpacing
      ensures tickSpacing == spacing
    {
      tickSpacing := spacing;
    }

    method SetHookAddress(hook: Address)
      modifies this`hookAddress
      ensures hookAddress == hook
    {
      hookAddress := hook;
    }

    /** A click on the submit button. While a write is loading the button is
        disabled and nothing happens; otherwise the canonical write is issued
        and becomes the pending one. */
    method Click() returns (issued: Option<InitializeCall>)
      requires Valid()
      modifies this`loading, this`pending
      ensures Valid() && loading
      ensures old(loading) ==> issued == None && pending == old(pending)
      ensures !old(loading) ==>
                && issued == Some(InitializeArgs(currency0.address, currency1.address, swapFee, tickSpacing, hookAddress))
                && pending == issued
    {
      if loading {
        issued := None;
      } else {
        issued := Some(InitializeArgs(currency0.address, currency1.address, swapFee, tickSpacing, hookAddress));
        loading, pending := true, issued;
      }
    }

    /** The pending write resolves (`succeeded`) or is rejected. Only a
        resolved write is followed by the success notification, which echoes
        the values of that write. */
    method Settle(succeeded: bool) returns (notice: Option<Notice>)
      requires Valid()
      modifies this`loading, this`pending
      ensures Valid() && !loading
      ensures notice.Some? <==> old(loading) && succeeded
      ensures notice.Some? ==>
                var c := old(pending).value;
                && notice.value.token0 == c.key.currency0
                && notice.value.token1 == c.key.currency1
                && notice.value.swapFee == c.key.fee
                && notice.value.tickSpacing == c.key.tickSpacing
                && notice.value.hookAddress == c.key.hooks
    {
      notice := if loading && succeeded then Some(NoticeFor(pending.value)) else None;
      loading, pending := false, None;
    }
  }

  /** Two forms whose slots hold the same two tokens in opposite order issue
      the same write, and a second click while it loads issues nothing. */
  method ReversedSlotsScenario(tokenA: Token, tokenB: Token, hook: Address)
    requires Lower(tokenA.address) != Lower(tokenB.address)
  {
    var lookups := [Some(tokenA), Some(tokenB)];
    var forward := new InitializeForm(lookups, tokenA, hook);
    var reversed := new InitializeForm(lookups, tokenA, hook);
    reversed.SelectToken0(tokenB.address);
    reversed.SelectToken1(tokenA.address);
    assert reversed.currency0 == tokenB && reversed.currency1 == tokenA;
    var first := forward.Click();
    var second := reversed.Click();
    InitializeArgsSlotOrderIrrelevant(tokenA.address, tokenB.address, DEFAULT_SWAP_FEE, DEFAULT_TICK_SPACING, hook);
    assert first == second;
    var again := forward.Click();
    assert again == None;
  }
}
