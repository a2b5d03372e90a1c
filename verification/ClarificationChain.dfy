/**
 * The chain of questions between "create this transaction" and its draft: wallet, then merchant,
 * then category, each asked only when the reference given is ambiguous. Between questions the
 * request lives in a stored context, from which the next turn rebuilds its input.
 *
 * An absent id, which the rebuilt input writes as an empty string, is None here.
 */
module ClarificationChain {
  import opened Common

  datatype TxType = Income | Expense

  datatype Entity = Entity(id: Id, name: string)

  datatype WalletSource = Direct(id: Id) | Reference(text: string)

  datatype Input = Input(
    txType: TxType, amount: string, wallet: WalletSource, categoryId: Option<Id>,
    date: Option<string>, description: Option<string>, merchantReference: Option<string>, categoryReference: Option<string>)

  datatype Context = Context(
    txType: TxType, amount: string, date: Option<string>, description: Option<string>,
    wallet: Option<Entity>, merchant: Option<Entity>, category: Option<Id>,
    merchantReference: Option<string>, categoryReference: Option<string>)

  /** What the resolver says about one reference. */
  datatype Answer = Resolved(entity: Entity) | Ambiguous(options: seq<Entity>) | NotFound(unsafe: bool) | Invalid

  /** Everything a turn is told from outside: the resolver's answers, the inferred category, today. */
  datatype World = World(wallet: Answer, merchant: Answer, category: Answer, inferred: Option<Id>, today: string)

  datatype Kind = Wallet | Merchant | Category

  datatype DraftInput = DraftInput(
    txType: TxType, amount: string, walletId: Id, categoryId: Id, date: string, description: Option<string>, merchantLabel: Option<string>)

  datatype Outcome =
    | Ask(kind: Kind, context: Context, options: seq<Entity>)
    | Drafted(draft: DraftInput)
    | WalletNotFound
    | NoCategory
    | WalletRequired
    | Refused

  /** What the input validator guarantees of texts. */
  predicate Validated(input: Input) {
    && (input.description.Some? ==> input.description.value != "")
    && (input.date.Some? ==> input.date.value != "")
    && (input.merchantReference.Some? ==> input.merchantReference.value != "")
    && (input.categoryReference.Some? ==> input.categoryReference.value != "")
  }

  // ---------------------------------------------------------------- the turns

  function Truthy(text: Option<string>): Option<string> {
    if text.Some? && text.value != "" then text else None
  }

  function BuildCanonicalContext(input: Input, wallet: Option<Entity>, merchant: Option<Entity>): Context {
    Context(input.txType, input.amount, Truthy(input.date), input.description, wallet, merchant, input.categoryId,
            Truthy(input.merchantReference), Truthy(input.categoryReference))
  }

  /** Only a wallet passed on by the caller is written back; otherwise the input names none. */
  function BuildTransactionInput(ctx: Context, wallet: Option<Entity>): Input {
    Input(ctx.txType, ctx.amount, if wallet.Some? then Direct(wallet.value.id) else Reference(""), ctx.category,
          ctx.date, Truthy(ctx.description), Truthy(ctx.merchantReference), Truthy(ctx.categoryReference))
  }

  function FinalizeDraft(input: Input, wallet: Option<Entity>, merchant: Option<Entity>, category: Option<Entity>, world: World): Outcome {
    var categoryId := if category.Some? then Some(category.value.id) else if input.categoryId.Some? then input.categoryId else world.inferred;
    var walletId := if wallet.Some? then Some(wallet.value.id) else if input.wallet.Direct? then Some(input.wallet.id) else None;
    if categoryId.None? then NoCategory
    else if walletId.None? then WalletRequired
    else Drafted(DraftInput(input.txType, input.amount, walletId.value, categoryId.value,
                            if Truthy(input.date).Some? then input.date.value else world.today, input.description,
                            if merchant.Some? then Some(merchant.value.name) else None))
  }

  /** Options without a usable candidate make storing the question fail. */
  function AskAbout(kind: Kind, ctx: Context, options: seq<Entity>): Outcome {
    if options == [] then Refused else Ask(kind, ctx, options)
  }

  function ContinueToCategory(input: Input, wallet: Option<Entity>, merchant: Option<Entity>, world: World): Outcome {
    if Truthy(input.categoryReference).None? then FinalizeDraft(input, wallet, merchant, None, world)
    else
      match world.category
      case Ambiguous(options) => AskAbout(Category, BuildCanonicalContext(input, wallet, merchant), options)
      case Resolved(e) => FinalizeDraft(input, wallet, merchant, Some(e), world)
      case _ => FinalizeDraft(input, wallet, merchant, None, world)
  }

  /** The first turn, once the wallet is known or was given by id. */
  function ExecuteFromMerchant(input: Input, wallet: Option<Entity>, world: World): Outcome {
    var named := Truthy(input.merchantReference);
    var looked := named.Some? || Truthy(input.description).Some?;
    if looked && named.Some? && world.merchant.Ambiguous? then
      AskAbout(Merchant, BuildCanonicalContext(input, wallet, None), world.merchant.options)
    else if looked && world.merchant.NotFound? && world.merchant.unsafe then Refused
    else
      var merchant := if looked && world.merchant.Resolved? then Some(world.merchant.entity) else None;
      if Truthy(input.categoryReference).Some? && world.category.Invalid? then Refused
      else ContinueToCategory(input, wallet, merchant, world)
  }

  function ExecuteTransactionCreate(input: Input, world: World): Outcome {
    if input.wallet.Direct? then ExecuteFromMerchant(input, None, world)
    else
      match world.wallet
      case Ambiguous(options) => AskAbout(Wallet, BuildCanonicalContext(input, None, None), options)
      case NotFound(_) => WalletNotFound
      case Invalid => Refused
      case Resolved(e) => ExecuteFromMerchant(input, Some(e), world)
  }

  /** The turn that answers the question of `kind` with `chosen`. */
  function SelectClarification(kind: Kind, ctx: Context, chosen: Entity, world: World): Outcome {
    var wallet := if kind == Wallet then Some(chosen) else ctx.wallet;
    var merchant := if kind == Merchant then Some(chosen) else ctx.merchant;
    var input := BuildTransactionInput(ctx, wallet);
    match kind
    case Wallet =>
      var named := Truthy(ctx.merchantReference);
      var looked := named.Some? || Truthy(ctx.description).Some?;
      if looked && named.Some? && world.merchant.Ambiguous? then
        AskAbout(Merchant, BuildCanonicalContext(input, wallet, None), world.merchant.options)
      else
        ContinueToCategory(input, wallet, if looked && world.merchant.Resolved? then Some(world.merchant.entity) else None, world)
    case Merchant => ContinueToCategory(input, wallet, merchant, world)
    case Category => FinalizeDraft(input, wallet, merchant, Some(chosen), world)
  }

  // ---------------------------------------------------------------- chains

  function Rank(kind: Kind): nat {
    match kind
    case Wallet => 1
    case Merchant => 2
    case Category => 3
  }

  datatype Pick = Pick(chosen: Entity, world: World)

  /** A request followed through its questions: each pick answers the question asked before it. */
  predicate IsChain(input: Input, first: World, picks: seq<Pick>, outcomes: seq<Outcome>) {
    && |outcomes| == |picks| + 1
    && outcomes[0] == ExecuteTransactionCreate(input, first)
    && (forall i :: 0 <= i < |picks| ==> Answers(outcomes[i], picks[i], outcomes[i + 1]))
  }

  predicate Answers(asked: Outcome, pick: Pick, next: Outcome) {
    && asked.Ask? && pick.chosen in asked.options
    && next == SelectClarification(asked.kind, asked.context, pick.chosen, pick.world)
  }

  /** Whatever the resolver answers, the next question is about a later kind of thing. */
  lemma SelectAdvances(kind: Kind, ctx: Context, chosen: Entity, world: World)
    ensures var next := SelectClarification(kind, ctx, chosen, world); next.Ask? ==> Rank(next.kind) > Rank(kind)
  {
  }

  lemma {:induction false} RankGrows(input: Input, first: World, picks: seq<Pick>, outcomes: seq<Outcome>, n: nat)
    requires IsChain(input, first, picks, outcomes) && n < |outcomes| && outcomes[n].Ask?
    ensures Rank(outcomes[n].kind) > n
  {
    if n > 0 {
      assert Answers(outcomes[n - 1], picks[n - 1], outcomes[n]);
      RankGrows(input, first, picks, outcomes, n - 1);
      SelectAdvances(outcomes[n - 1].kind, outcomes[n - 1].context, picks[n - 1].chosen, picks[n - 1].world);
    }
  }

  /** So a chain ends after at most three answers. */
  lemma AtMostThreeSelections(input: Input, first: World, picks: seq<Pick>, outcomes: seq<Outcome>)
    requires IsChain(input, first, picks, outcomes)
    ensures |picks| <= 3
    ensures |picks| == 3 ==> !outcomes[3].Ask?
  {
    if |picks| > 3 {
      assert Answers(outcomes[3], picks[3], outcomes[4]);
      RankGrows(input, first, picks, outcomes, 3);
    } else if |picks| == 3 && outcomes[3].Ask? {
      RankGrows(input, first, picks, outcomes, 3);
    }
  }

  // ---------------------------------------------------------------- meaning

  function WorldAt(first: World, picks: seq<Pick>, n: nat): World
    requires n <= |picks|
  {
    if n == 0 then first else picks[n - 1].world
  }

  predicate WalletAsked(input: Input, first: World) {
    input.wallet.Reference? && first.wallet.Ambiguous?
  }

  /** Only a merchant that was named is asked about, not one guessed from the description. */
  predicate MerchantAsked(input: Input, world: World) {
    input.merchantReference.Some? && world.merchant.Ambiguous?
  }

  predicate CategoryAsked(input: Input, world: World) {
    input.categoryReference.Some? && world.category.Ambiguous?
  }

  /** The turn that looks the merchant up: the first in which the wallet is settled. */
  function MerchantTurn(input: Input, first: World): nat {
    if WalletAsked(input, first) then 1 else 0
  }

  /** The turn that looks the category up: the first in which the merchant is settled. */
  function CategoryTurn(input: Input, first: World, picks: seq<Pick>): nat {
    var t := MerchantTurn(input, first);
    if t <= |picks| && MerchantAsked(input, WorldAt(first, picks, t)) then t + 1 else t
  }

  /** The wallet a chain settles on: the one chosen, or the one the reference resolved to. */
  function SettledWallet(input: Input, first: World, picks: seq<Pick>): Option<Entity> {
    if input.wallet.Direct? then None
    else if first.wallet.Resolved? then Some(first.wallet.entity)
    else if first.wallet.Ambiguous? && picks != [] then Some(picks[0].chosen)
    else None
  }

  /** A merchant found by name or by description. */
  function MerchantFound(input: Input, world: World): Option<Entity> {
    if (input.merchantReference.Some? || input.description.Some?) && world.merchant.Resolved? then Some(world.merchant.entity) else None
  }

  /** The merchant chosen, if one was asked about; otherwise the one found when it was looked up. */
  function SettledMerchant(input: Input, first: World, picks: seq<Pick>): Option<Entity> {
    var t := MerchantTurn(input, first);
    if t > |picks| then None
    else if !MerchantAsked(input, WorldAt(first, picks, t)) then MerchantFound(input, WorldAt(first, picks, t))
    else if t < |picks| then Some(picks[t].chosen)
    else None
  }

  /** What the category reference resolved to, else the id given, else the one inferred. */
  function CategoryFound(input: Input, world: World): Option<Id> {
    if input.categoryReference.Some? && world.category.Resolved? then Some(world.category.entity.id)
    else if input.categoryId.Some? then input.categoryId
    else world.inferred
  }

  /** The category chosen, if one was asked about; otherwise the one found. */
  function SettledCategory(input: Input, first: World, picks: seq<Pick>): Option<Id> {
    var t := CategoryTurn(input, first, picks);
    if t > |picks| then None
    else if !CategoryAsked(input, WorldAt(first, picks, t)) then CategoryFound(input, WorldAt(first, picks, t))
    else if t < |picks| then Some(picks[t].chosen.id)
    else None
  }

  function IdOf(e: Option<Entity>): Option<Id> {
    if e.Some? then Some(e.value.id) else None
  }

  function NameOf(e: Option<Entity>): Option<string> {
    if e.Some? then Some(e.value.name) else None
  }

  /** A wallet given by id is good for a draft in the first turn only: no question keeps it. */
  function SettledWalletId(input: Input, first: World, picks: seq<Pick>): Option<Id> {
    if input.wallet.Direct? && picks == [] then Some(input.wallet.id) else IdOf(SettledWallet(input, first, picks))
  }

  /** What a turn comes to, its stored context left out. */
  datatype Verdict = Asks(kind: Kind, options: seq<Entity>) | Ends(outcome: Outcome)

  function VerdictOf(o: Outcome): Verdict {
    if o.Ask? then Asks(o.kind, o.options) else Ends(o)
  }

  function AsksFor(kind: Kind, options: seq<Entity>): Verdict {
    if options == [] then Ends(Refused) else Asks(kind, options)
  }

  /** The draft of a request with everything settled. */
  function DraftOf(input: Input, walletId: Option<Id>, merchant: Option<Entity>, category: Option<Id>, today: string): Outcome {
    if category.None? then NoCategory
    else if walletId.None? then WalletRequired
    else Drafted(DraftInput(input.txType, input.amount, walletId.value, category.value,
                            if input.date.Some? then input.date.value else today, input.description, NameOf(merchant)))
  }

  /** Only the first turn is strict about what was typed: no markup for a merchant, no invalid category. */
  predicate FirstRefuses(input: Input, first: World) {
    || ((input.merchantReference.Some? || input.description.Some?) && first.merchant.NotFound? && first.merchant.unsafe)
    || (input.categoryReference.Some? && first.category.Invalid?)
  }

  /** What the request and the answers given so far amount to, told without any stored context. */
  function Expected(input: Input, first: World, picks: seq<Pick>): Verdict {
    var (m, c) := (MerchantTurn(input, first), CategoryTurn(input, first, picks));
    if input.wallet.Reference? && first.wallet.NotFound? then Ends(WalletNotFound)
    else if input.wallet.Reference? && first.wallet.Invalid? then Ends(Refused)
    else if |picks| < m then AsksFor(Wallet, first.wallet.options)
    else if |picks| < c then AsksFor(Merchant, WorldAt(first, picks, m).merchant.options)
    else if c == 0 && FirstRefuses(input, first) then Ends(Refused)
    else if |picks| == c && CategoryAsked(input, WorldAt(first, picks, c)) then AsksFor(Category, WorldAt(first, picks, c).category.options)
    else Ends(DraftOf(input, SettledWalletId(input, first, picks), SettledMerchant(input, first, picks),
                      SettledCategory(input, first, picks), WorldAt(first, picks, |picks|).today))
  }

  /** A stored context says what the request said, with the wallet and the merchant settled so far. */
  predicate Carries(ctx: Context, input: Input, wallet: Option<Entity>, merchant: Option<Entity>) {
    && ctx.txType == input.txType && ctx.amount == input.amount
    && ctx.date == input.date && ctx.description == input.description
    && ctx.merchantReference == input.merchantReference && ctx.categoryReference == input.categoryReference
    && ctx.category == input.categoryId
    && ctx.wallet == wallet && ctx.merchant == merchant
  }

  /** Rebuilding the input from a context and storing it again is the identity on what it says. */
  lemma ContextRoundTrip(ctx: Context, input: Input, wallet: Option<Entity>, merchant: Option<Entity>)
    requires Validated(input) && Carries(ctx.(wallet := wallet, merchant := merchant), input, wallet, merchant)
    ensures Carries(BuildCanonicalContext(BuildTransactionInput(ctx, wallet), wallet, merchant), input, wallet, merchant)
    ensures Validated(BuildTransactionInput(ctx, wallet))
  {
  }

  /** A turn is as expected when its verdict is, and a question's context carries the request. */
  predicate TurnOk(input: Input, first: World, picks: seq<Pick>, o: Outcome) {
    && VerdictOf(o) == Expected(input, first, picks)
    && (o.Ask? ==> Carries(o.context, input, SettledWallet(input, first, picks),
                           if o.kind == Category then SettledMerchant(input, first, picks) else None))
  }

  /** From the category on: the question when the reference is ambiguous, the draft otherwise. */
  lemma CategoryStage(input: Input, rebuilt: Input, wallet: Option<Entity>, merchant: Option<Entity>, world: World)
    requires Validated(input) && rebuilt == input.(wallet := rebuilt.wallet)
    ensures var o := ContinueToCategory(rebuilt, wallet, merchant, world);
      && (CategoryAsked(input, world) ==>
            VerdictOf(o) == AsksFor(Category, world.category.options) && (o.Ask? ==> Carries(o.context, input, wallet, merchant)))
      && (!CategoryAsked(input, world) ==>
            o == DraftOf(input, if wallet.Some? then IdOf(wallet) else if rebuilt.wallet.Direct? then Some(rebuilt.wallet.id) else None,
                         merchant, CategoryFound(input, world), world.today))
  {
  }

  /** The first turn, once the wallet is settled. */
  lemma MerchantStage(input: Input, first: World, wallet: Option<Entity>)
    requires Validated(input) && wallet == SettledWallet(input, first, [])
    requires input.wallet.Reference? ==> first.wallet.Resolved?
    ensures TurnOk(input, first, [], ExecuteFromMerchant(input, wallet, first))
  {
    CategoryStage(input, input, wallet, MerchantFound(input, first), first);
  }

  lemma FirstTurn(input: Input, first: World)
    requires Validated(input)
    ensures TurnOk(input, first, [], ExecuteTransactionCreate(input, first))
  {
    if input.wallet.Direct? || first.wallet.Resolved? {
      MerchantStage(input, first, SettledWallet(input, first, []));
    }
  }

  lemma AfterWallet(input: Input, first: World, pick: Pick, ctx: Context)
    requires Validated(input) && WalletAsked(input, first) && Carries(ctx, input, None, None)
    ensures TurnOk(input, first, [pick], SelectClarification(Wallet, ctx, pick.chosen, pick.world))
  {
    var rebuilt := BuildTransactionInput(ctx, Some(pick.chosen));
    CategoryStage(input, rebuilt, Some(pick.chosen), MerchantFound(input, pick.world), pick.world);
    assert WorldAt(first, [pick], 1) == pick.world;
  }

  lemma AfterMerchant(input: Input, first: World, before: seq<Pick>, pick: Pick, ctx: Context)
    requires Validated(input) && |before| == MerchantTurn(input, first) && MerchantAsked(input, WorldAt(first, before, |before|))
    requires !(input.wallet.Reference? && (first.wallet.NotFound? || first.wallet.Invalid?))
    requires Carries(ctx, input, SettledWallet(input, first, before), None)
    ensures TurnOk(input, first, before + [pick], SelectClarification(Merchant, ctx, pick.chosen, pick.world))
  {
    var (picks, wallet) := (before + [pick], SettledWallet(input, first, before));
    assert WorldAt(first, picks, |before|) == WorldAt(first, before, |before|);
    assert WorldAt(first, picks, |picks|) == pick.world;
    assert SettledWallet(input, first, picks) == wallet;
    CategoryStage(input, BuildTransactionInput(ctx, wallet), wallet, Some(pick.chosen), pick.world);
  }

  lemma AfterCategory(input: Input, first: World, before: seq<Pick>, pick: Pick, ctx: Context)
    requires Validated(input) && |before| == CategoryTurn(input, first, before) && CategoryAsked(input, WorldAt(first, before, |before|))
    requires !(input.wallet.Reference? && (first.wallet.NotFound? || first.wallet.Invalid?))
    requires |before| == 0 ==> !FirstRefuses(input, first)
    requires Carries(ctx, input, SettledWallet(input, first, before), SettledMerchant(input, first, before))
    ensures TurnOk(input, first, before + [pick], SelectClarification(Category, ctx, pick.chosen, pick.world))
  {
    var (picks, m) := (before + [pick], MerchantTurn(input, first));
    assert m <= |before|;
    assert WorldAt(first, picks, m) == WorldAt(first, before, m);
    assert WorldAt(first, picks, |before|) == WorldAt(first, before, |before|);
    assert WorldAt(first, picks, |picks|) == pick.world;
    assert SettledMerchant(input, first, picks) == SettledMerchant(input, first, before);
    assert SettledWallet(input, first, picks) == SettledWallet(input, first, before);
    assert SettledCategory(input, first, picks) == Some(pick.chosen.id);
  }

  lemma NextTurn(input: Input, first: World, before: seq<Pick>, pick: Pick, asked: Outcome)
    requires Validated(input) && TurnOk(input, first, before, asked) && asked.Ask?
    ensures TurnOk(input, first, before + [pick], SelectClarification(asked.kind, asked.context, pick.chosen, pick.world))
  {
    match asked.kind
    case Wallet =>
      assert before == [] && before + [pick] == [pick];
      AfterWallet(input, first, pick, asked.context);
    case Merchant => AfterMerchant(input, first, before, pick, asked.context);
    case Category => AfterCategory(input, first, before, pick, asked.context);
  }

  /** Asking turn by turn, from stored contexts, comes to what the request and the answers amount to. */
  lemma {:induction false} ChainIsFaithful(input: Input, first: World, picks: seq<Pick>, outcomes: seq<Outcome>, n: nat)
    requires Validated(input) && IsChain(input, first, picks, outcomes) && n < |outcomes|
    ensures TurnOk(input, first, picks[..n], outcomes[n])
  {
    if n == 0 {
      FirstTurn(input, first);
    } else {
      ChainIsFaithful(input, first, picks, outcomes, n - 1);
      assert Answers(outcomes[n - 1], picks[n - 1], outcomes[n]);
      NextTurn(input, first, picks[..n - 1], picks[n - 1], outcomes[n - 1]);
      assert picks[..n] == picks[..n - 1] + [picks[n - 1]];
    }
  }

  predicate Says(d: DraftInput, input: Input, today: string) {
    && d.txType == input.txType && d.amount == input.amount && d.description == input.description
    && d.date == (if input.date.Some? then input.date.value else today)
  }

  /**
   * The draft of a chain has the type, amount, description and supplied date of the request, today's
   * date when none was supplied, and the wallet, the category and the merchant that were chosen where
   * one was asked about, found where one was referred to, and given or inferred otherwise.
   */
  lemma DraftKeepsMeaning(input: Input, first: World, picks: seq<Pick>, outcomes: seq<Outcome>)
    requires Validated(input) && IsChain(input, first, picks, outcomes) && outcomes[|picks|].Drafted?
    ensures var d := outcomes[|picks|].draft;
      && Says(d, input, WorldAt(first, picks, |picks|).today)
      && Some(d.walletId) == (if input.wallet.Direct? then Some(input.wallet.id) else IdOf(SettledWallet(input, first, picks)))
      && Some(d.categoryId) == SettledCategory(input, first, picks)
      && d.merchantLabel == NameOf(SettledMerchant(input, first, picks))
    ensures input.wallet.Direct? ==> picks == []
  {
    ChainIsFaithful(input, first, picks, outcomes, |picks|);
    assert picks[..|picks|] == picks;
  }

  predicate IsAbout(o: Outcome, kind: Kind) {
    o.Ask? && o.kind == kind
  }

  /** Told by the questions themselves: an answer about a category, or about a merchant, is the draft's. */
  lemma AnswersReachTheDraft(input: Input, first: World, picks: seq<Pick>, outcomes: seq<Outcome>, n: nat)
    requires Validated(input) && IsChain(input, first, picks, outcomes) && outcomes[|picks|].Drafted? && n < |picks|
    ensures var d := outcomes[|picks|].draft;
      && (IsAbout(outcomes[n], Wallet) ==> d.walletId == picks[n].chosen.id)
      && (IsAbout(outcomes[n], Merchant) ==> d.merchantLabel == Some(picks[n].chosen.name))
      && (IsAbout(outcomes[n], Category) ==> d.categoryId == picks[n].chosen.id)
  {
    assert Answers(outcomes[n], picks[n], outcomes[n + 1]);
    ChainIsFaithful(input, first, picks, outcomes, n);
    DraftKeepsMeaning(input, first, picks, outcomes);
    assert WorldAt(first, picks[..n], n) == WorldAt(first, picks, n);
    var m := MerchantTurn(input, first);
    if m <= n {
      assert WorldAt(first, picks[..n], m) == WorldAt(first, picks, m);
    }
    if outcomes[n].kind == Category {
      assert n == CategoryTurn(input, first, picks[..n]) == CategoryTurn(input, first, picks);
    }
  }

  /**
   * A wallet given by id does not survive a question: the chain fails for want of a wallet exactly
   * when the request named the wallet by id, something had to be asked, and a category was found.
   */
  lemma WalletLostExactly(input: Input, first: World, picks: seq<Pick>, outcomes: seq<Outcome>)
    requires Validated(input) && IsChain(input, first, picks, outcomes)
    ensures var last := outcomes[|picks|];
      (last.Drafted? || last.WalletRequired?) ==> (last.WalletRequired? <==> input.wallet.Direct? && picks != [])
  {
    ChainIsFaithful(input, first, picks, outcomes, |picks|);
    if picks != [] {
      assert Answers(outcomes[0], picks[0], outcomes[1]);
    }
  }

  /** The first turn has to ask: a merchant named ambiguously, or a category referred to ambiguously. */
  predicate MustAsk(input: Input, first: World) {
    (input.merchantReference.Some? && first.merchant.Ambiguous?) || (input.categoryReference.Some? && first.category.Ambiguous?)
  }

  /**
   * The same, told from the request and the first answers alone: a wallet given by id is lost exactly
   * when the merchant it names or the category it refers to is ambiguous.
   */
  lemma WalletLostOnFirstAnswers(input: Input, first: World, picks: seq<Pick>, outcomes: seq<Outcome>)
    requires Validated(input) && IsChain(input, first, picks, outcomes)
    requires outcomes[|picks|].Drafted? || outcomes[|picks|].WalletRequired?
    ensures outcomes[|picks|].WalletRequired? <==> input.wallet.Direct? && MustAsk(input, first)
  {
    WalletLostExactly(input, first, picks, outcomes);
    if picks != [] {
      assert Answers(outcomes[0], picks[0], outcomes[1]);
    }
  }

  /** For instance: wallet 7 by id, a merchant name two merchants share, and a category to infer. */
  lemma DirectWalletIsLost()
    ensures var input := Input(Expense, "25000", Direct(7), None, None, None, Some("kopi"), None);
      var world := World(Invalid, Ambiguous([Entity(1, "Kopi A"), Entity(2, "Kopi B")]), Invalid, Some(9), "2026-07-01");
      var asked := ExecuteTransactionCreate(input, world);
      Validated(input) && asked.Ask? && SelectClarification(asked.kind, asked.context, Entity(1, "Kopi A"), world) == WalletRequired
  {
  }
}
