# Pool initialization form, modelled in Dafny

This project models the view model behind the "Initialize a New Pool" form
of a Uniswap-v4-style hook playground. The form has two token slots, a swap
fee, a tick spacing and a hook address. On submit it orders the two tokens
into a canonical (currency0, currency1) pool key and issues one `initialize`
write to the pool manager. It then shows a success notification. The submit
button is disabled while that write is loading.

Files:

- `js_string.dfy`, module `JsString`: the two string primitives the form
  uses. `Less` is JavaScript's `<` on strings, a lexicographic order with a
  shorter prefix first. It is proved to be a strict total order and to agree
  with a non-recursive reference definition (`FirstDifferenceLess`).
  `Lower` is `toLowerCase` on ASCII letters.
- `initialize_component.dfy`, module `InitializeComponent`:
  - `Canonicalize` and its lemmas model the token ordering.
  - `InitializeArgs` builds the write's arguments.
  - `Seed`, `Options`, `FindIndex` and `Select` model the slot lookup with
    its blank fallback.
  - Class `InitializeForm` holds the component state. Its fields are the
    lookups, the two slots, fee, tick spacing, hook address, the loading
    flag, and the write that is pending. Its methods are the event
    handlers.

The write capability and the notification sink are external. A click returns
the write it issues (`Click`). The write completing or failing is an input
event (`Settle`), and `Settle` returns the notification it causes.
`BLANK_TOKEN` and the chain's counter-hook address come from files that are
not part of this model. They are constructor parameters. The looked-up token
data are a parameter too: a sequence with one optional token per configured
address.

## Model

| member | source | states |
|---|---|---|
| JsString.LessIsFirstDifference | src/nextjsv2/components/swap-ui/InitializeComponent.tsx:46 | the recursive string `<` holds exactly when `a` is a proper prefix of `b` or the first differing character of `a` is smaller |
| JsString.LessIrreflexive | src/nextjsv2/components/swap-ui/InitializeComponent.tsx:46 | no string is `<` itself, so equal lower-cased addresses make the comparison false |
| JsString.LessAsymmetric | src/nextjsv2/components/swap-ui/InitializeComponent.tsx:46 | `a < b` rules out `b < a` |
| JsString.LessTransitive | src/nextjsv2/components/swap-ui/InitializeComponent.tsx:46 | string `<` is transitive |
| JsString.LessTotal | src/nextjsv2/components/swap-ui/InitializeComponent.tsx:46 | any two strings are equal or ordered one way or the other |
| JsString.Lower | src/nextjsv2/components/swap-ui/InitializeComponent.tsx:46 | `toLowerCase` keeps the length, maps each character by ASCII lower-casing, and leaves no upper-case letter |
| JsString.LowerIdempotent | src/nextjsv2/components/swap-ui/InitializeComponent.tsx:46 | lower-casing twice is lower-casing once |
| JsString.LowerFixesOnlyLowerCase | src/nextjsv2/components/swap-ui/InitializeComponent.tsx:46 | lower-casing leaves a string unchanged iff it has no upper-case letter |
| InitializeComponent.Canonicalize | src/nextjsv2/components/swap-ui/InitializeComponent.tsx:45-48 | (c0, c1) is a permutation of the two slot addresses, and lower(c0) <= lower(c1) |
| InitializeComponent.CanonicalizeSymmetric | src/nextjsv2/components/swap-ui/InitializeComponent.tsx:45-48 | addresses that differ ignoring case give the same (c0, c1) whichever slot each is in |
| InitializeComponent.CanonicalizeStrict | src/nextjsv2/components/swap-ui/InitializeComponent.tsx:45-48 | addresses that differ ignoring case give lower(c0) < lower(c1) strictly |
| InitializeComponent.CanonicalizeEqualIgnoringCase | src/nextjsv2/components/swap-ui/InitializeComponent.tsx:45-48 | addresses equal ignoring case give c0 = slot 1's address and c1 = slot 0's, since both strict comparisons are false |
| InitializeComponent.CanonicalizeIgnoresCase | src/nextjsv2/components/swap-ui/InitializeComponent.tsx:45-48 | ordering the lower-cased addresses gives the lower-cased (c0, c1): the decision depends only on lower-cased forms |
| InitializeComponent.Pow2Add | src/nextjsv2/components/swap-ui/InitializeComponent.tsx:59 | 2^(m+n) = 2^m * 2^n, used to evaluate the price constant |
| InitializeComponent.SqrtPriceIsOne | src/nextjsv2/components/swap-ui/InitializeComponent.tsx:59 | the sqrt-price constant 79228162514264337593543950336 is 2^96, a price of 1.0 in Q64.96 |
| InitializeComponent.InitializeArgs | src/nextjsv2/components/swap-ui/InitializeComponent.tsx:45-61 | the key's currencies are a permutation of the slot addresses, ordered ignoring case; fee, tick spacing and hooks are passed through; the second argument is 2^96 and the third is "0x0" |
| InitializeComponent.InitializeArgsSlotOrderIrrelevant | src/nextjsv2/components/swap-ui/InitializeComponent.tsx:45-61 | swapping the slots does not change the write when the addresses differ ignoring case |
| InitializeComponent.Seed | src/nextjsv2/components/swap-ui/InitializeComponent.tsx:28-29 | a slot starts with its lookup's data when present, otherwise the blank token, and never anything else |
| InitializeComponent.Options | src/nextjsv2/components/swap-ui/InitializeComponent.tsx:90 | one dropdown option per lookup: its data, or the blank token |
| InitializeComponent.FindIndex | src/nextjsv2/components/swap-ui/InitializeComponent.tsx:92 | `find` returns the first index whose data has exactly the chosen address, and None only when there is no such index |
| InitializeComponent.Select | src/nextjsv2/components/swap-ui/InitializeComponent.tsx:91-101 | the chosen token is the first looked-up token whose address equals the value exactly (case-sensitive), or the blank token when none does |
| InitializeComponent.SelectOptionKeepsAddress | src/nextjsv2/components/swap-ui/InitializeComponent.tsx:90-101 | choosing any offered option stores a token with the chosen address |
| InitializeComponent.InitializeForm.constructor | src/nextjsv2/components/swap-ui/InitializeComponent.tsx:26-33 | slots seeded from the lookups or blank, fee 3000, tick spacing 60, the chain's hook address, nothing loading |
| InitializeComponent.InitializeForm.LookupsChanged | src/nextjsv2/components/swap-ui/InitializeComponent.tsx:26-29 | new lookup results replace the lookups; the slots are not re-seeded |
| InitializeComponent.InitializeForm.SelectToken0 | src/nextjsv2/components/swap-ui/InitializeComponent.tsx:91-93 | slot 0 becomes the selected token or blank; only slot 0 changes |
| InitializeComponent.InitializeForm.SelectToken1 | src/nextjsv2/components/swap-ui/InitializeComponent.tsx:99-101 | slot 1 becomes the selected token or blank; only slot 1 changes |
| InitializeComponent.InitializeForm.SetSwapFee | src/nextjsv2/components/swap-ui/InitializeComponent.tsx:109 | only the swap fee changes, to the entered value |
| InitializeComponent.InitializeForm.SetTickSpacing | src/nextjsv2/components/swap-ui/InitializeComponent.tsx:117 | only the tick spacing changes, to the entered value |
| InitializeComponent.InitializeForm.SetHookAddress | src/nextjsv2/components/swap-ui/InitializeComponent.tsx:125 | only the hook address changes, to the entered text |
| InitializeComponent.InitializeForm.Click | src/nextjsv2/components/swap-ui/InitializeComponent.tsx:15-16 | while loading, a click issues no write and changes nothing; otherwise it issues the canonical write of the current state and that write becomes the pending one |
| InitializeComponent.InitializeForm.Settle | src/nextjsv2/components/swap-ui/InitializeComponent.tsx:63-78 | loading ends; a notification appears exactly when a pending write succeeded, and its Token0, Token1, fee, tick spacing and hook equal that write's values |

## Left out

- The token list's address table (`nextjs/utils/config.ts`) only re-exports
  records from a generated file. The model takes the lookup results as a plain
  sequence of optional tokens.
- The wallet hooks `useChainId`, `useToken` and `usePoolManagerInitialize`
  are foreign asynchronous calls, and so is the transaction itself. The write
  is the value `Click` returns. Its outcome is the input to `Settle`.
- Exposing the write's error flag and error value is left out. The form
  never reads them.
- `BigInt(e.target.value)` parsing is left out. It throws or yields 0 on
  malformed or empty text. `SetSwapFee` and `SetTickSpacing` take the
  parsed integer.
- InitializeArgs: does not model the `Number(...)` conversion of fee and tick
  spacing to a double, which loses precision above 2^53. Fee and tick spacing
  are passed through as unbounded integers, so the notification's fee always
  equals the written one.
- JsString.Lower: lower-cases only ASCII `A`–`Z`; JavaScript's `toLowerCase`
  also maps non-ASCII letters. Hexadecimal addresses are ASCII.
- JsString.Less: compares Unicode scalar values, while JavaScript compares
  UTF-16 code units. The two agree on the Basic Multilingual Plane and
  therefore on ASCII addresses.
- The hook address of a chain without a deployed counter contract would be
  `undefined`. The model takes the initial hook address as a string.
- The React re-render cycle and async/await sequencing are left out. Only the
  loading flag and the pending write are kept. `LookupsChanged` is the one
  re-render effect that is modelled, because the slot state is seeded only
  on the first render. The `console.log` call is left out.
- JSX rendering is left out: layout, the button label, the dropdown and
  input widgets and the toast itself. `Settle` returns the notification's
  contents.
