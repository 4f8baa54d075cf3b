/** `reconcile_provider_account_mode` of `src/admin.rs`: the account and route-target tables under changes of a
    provider's credential mode. */
module AccountMode {
  import opened Common

  const NOAUTH_LABEL := "__kinetix_noauth__"
  const LEGACY_LABEL := "public"

  /** The columns that a reset puts back to their initial values. */
  datatype Health = Health(
    status: string, cooldownUntil: Option<string>, quotaResetAt: Option<string>, quotaType: string,
    quotaWindowS: Option<int>, softQuotaUsd: Option<real>, priority: int, weight: int, lastError: Option<string>,
    lastProbeAt: Option<string>, circuitOpenUntil: Option<string>, consecutiveFailures: int)

  const PRISTINE := Health("healthy", None, None, "none", None, None, 1, 1, None, None, None, 0)

  datatype Account = Account(
    providerId: string, tag: string, secretEnc: string, keyMask: string, health: Health, createdAt: string)
  datatype Target = Target(accountId: Option<string>, modelId: string)

  /** The two tables, keyed by row id. */
  datatype Tables = Tables(accounts: map<string, Account>, targets: map<string, Target>)

  datatype Mode = NoCredential | Manual | AuthFlow

  /** One reconciliation: the empty secret as encrypted this time, and the id and time an insert would use. */
  datatype Change = Change(provider: string, mode: Mode, emptySecret: string, newId: string, createdAt: string)

  /** `mask_secret`: short secrets are hidden altogether. */
  function MaskSecret(secret: string): string {
    if |secret| <= 10 then "****" else secret[..4] + "..." + secret[|secret| - 4..]
  }

  /** A mask shows at most the four characters at either end, and nothing of a short secret. */
  lemma MaskShowsEnds(secret: string)
    ensures |secret| <= 10 ==> MaskSecret(secret) == "****"
    ensures |secret| > 10 ==>
      var mask := MaskSecret(secret);
      |mask| == 11 && mask[..4] == secret[..4] && mask[4..7] == "..." && mask[7..] == secret[|secret| - 4..]
  {
  }

  /** Created for a credential-free provider, now or by an older release. */
  predicate Synthetic(a: Account) {
    a.tag == NOAUTH_LABEL || (a.tag == LEGACY_LABEL && a.keyMask == MaskSecret("public"))
  }

  function Owned(accounts: map<string, Account>, provider: string): set<string> {
    set id | id in accounts && accounts[id].providerId == provider
  }

  function Placeholder(c: Change, createdAt: string): Account {
    Account(c.provider, NOAUTH_LABEL, c.emptySecret, "", PRISTINE, createdAt)
  }

  /** Removing accounts clears the targets pinned to them first. */
  function Unpinned(targets: map<string, Target>, gone: set<string>): map<string, Target> {
    map t | t in targets ::
      if targets[t].accountId.Some? && targets[t].accountId.value in gone
      then targets[t].(accountId := None) else targets[t]
  }

  predicate LoneSynthetic(accounts: map<string, Account>, provider: string, id: string) {
    Owned(accounts, provider) == {id} && id in accounts && Synthetic(accounts[id])
  }

  function Reconciled(s: Tables, c: Change): Tables {
    var owned := Owned(s.accounts, c.provider);
    match c.mode
    case NoCredential =>
      if exists id :: id in owned && LoneSynthetic(s.accounts, c.provider, id)
      then
        s.(accounts := map id | id in s.accounts ::
          if id in owned then Placeholder(c, s.accounts[id].createdAt) else s.accounts[id])
      else Tables((s.accounts - owned)[c.newId := Placeholder(c, c.createdAt)], Unpinned(s.targets, owned))
    case _ =>
      var gone := set id | id in owned && Synthetic(s.accounts[id]);
      Tables(s.accounts - gone, Unpinned(s.targets, gone))
  }

  lemma OnlyMember(s: set<string>, x: string)
    requires |s| == 1 && x in s
    ensures s == {x}
  {
    assert |s - {x}| == 0;
  }

  class AccountStore {
    var accounts: map<string, Account>
    var targets: map<string, Target>

    function Contents(): Tables
      reads this
    {
      Tables(accounts, targets)
    }

    constructor (s: Tables)
      ensures Contents() == s
    {
      accounts, targets := s.accounts, s.targets;
    }

    method ReconcileProviderAccountMode(c: Change)
      modifies this
      ensures Contents() == Reconciled(old(Contents()), c)
    {
      var owned := set id | id in accounts && accounts[id].providerId == c.provider;
      if c.mode == NoCredential {
        var lone := false;
        if |owned| == 1 {
          var id :| id in owned;
          OnlyMember(owned, id);
          lone := Synthetic(accounts[id]);
          if lone {
            assert LoneSynthetic(accounts, c.provider, id);
            accounts := accounts[id := Placeholder(c, accounts[id].createdAt)];
          }
        }
        if !lone {
          targets := Unpinned(targets, owned);
          accounts := accounts - owned;
          accounts := accounts[c.newId := Placeholder(c, c.createdAt)];
        }
      } else {
        var gone := set id | id in owned && Synthetic(accounts[id]);
        targets := Unpinned(targets, gone);
        accounts := accounts - gone;
      }
    }
  }

  // ---------- What a mode means ----------

  /** The provider's only account is the empty no-auth one, in perfect health and with the initial settings. */
  predicate LonePlaceholder(s: Tables, c: Change, id: string) {
    && Owned(s.accounts, c.provider) == {id}
    && id in s.accounts
    && var health := Health("healthy", None, None, "none", None, None, 1, 1, None, None, None, 0);
       s.accounts[id] ==
         Account(c.provider, "__kinetix_noauth__", c.emptySecret, "", health, s.accounts[id].createdAt)
  }

  /** The state a change stands for. */
  predicate InMode(s: Tables, c: Change) {
    match c.mode
    case NoCredential => exists id :: id in s.accounts && LonePlaceholder(s, c, id)
    case _ => forall id :: id in Owned(s.accounts, c.provider) ==> !Synthetic(s.accounts[id])
  }

  predicate NoDangling(s: Tables) {
    forall t :: t in s.targets && s.targets[t].accountId.Some? ==> s.targets[t].accountId.value in s.accounts
  }

  /** Reconciling puts the provider in its mode and leaves no target pinned to a removed account. */
  lemma ReconcileEstablishes(s: Tables, c: Change)
    requires c.newId !in s.accounts
    ensures InMode(Reconciled(s, c), c)
    ensures NoDangling(s) ==> NoDangling(Reconciled(s, c))
  {
    var r := Reconciled(s, c);
    var owned := Owned(s.accounts, c.provider);
    if c.mode == NoCredential {
      if exists id :: id in owned && LoneSynthetic(s.accounts, c.provider, id) {
        var id :| id in owned && LoneSynthetic(s.accounts, c.provider, id);
        assert Owned(r.accounts, c.provider) == {id};
        assert LonePlaceholder(r, c, id);
      } else {
        assert Owned(r.accounts, c.provider) == {c.newId};
        assert LonePlaceholder(r, c, c.newId);
      }
    }
  }

  /** Other providers' accounts, the targets pinned to them and unpinned targets stay as they are; a credential mode
      also keeps the provider's own real accounts and their targets. */
  lemma ReconcileFrame(s: Tables, c: Change)
    requires c.newId !in s.accounts
    ensures var r := Reconciled(s, c);
      && r.targets.Keys == s.targets.Keys
      && (forall id :: id in s.accounts && s.accounts[id].providerId != c.provider ==>
            id in r.accounts && r.accounts[id] == s.accounts[id])
      && (forall id :: id in r.accounts && r.accounts[id].providerId != c.provider ==> id in s.accounts)
      && (forall id :: c.mode != NoCredential && id in s.accounts && !Synthetic(s.accounts[id]) ==>
            id in r.accounts && r.accounts[id] == s.accounts[id])
      && (forall t :: t in s.targets && (s.targets[t].accountId.None? || s.targets[t].accountId.value in r.accounts)
            ==> r.targets[t] == s.targets[t])
      && (forall t :: t in s.targets ==> r.targets[t].modelId == s.targets[t].modelId)
  {
  }

  /** Changing to mode none keeps a provider's account, with its id, its age and the targets pinned to it, exactly when
      it is the only one and was made for a credential-free provider, by this release or an older one. Otherwise all its
      accounts give way to a new one, and no target is pinned to any of them. */
  lemma LoneSyntheticIsKept(s: Tables, c: Change, id: string)
    requires c.mode == NoCredential && c.newId !in s.accounts && id in Owned(s.accounts, c.provider)
    ensures var r := Reconciled(s, c);
      var a := s.accounts[id];
      var lone := Owned(s.accounts, c.provider) == {id}
        && (a.tag == "__kinetix_noauth__" || (a.tag == "public" && a.keyMask == "****"));
      && (id in r.accounts <==> lone)
      && (lone ==> r.accounts.Keys == s.accounts.Keys && r.targets == s.targets)
      && (lone ==> r.accounts[id].createdAt == a.createdAt)
      && (!lone ==> Owned(r.accounts, c.provider) == {c.newId} && r.accounts[c.newId].createdAt == c.createdAt)
      && (!lone ==> forall t :: t in r.targets ==> r.targets[t].accountId != Some(id))
  {
    if exists k :: k in Owned(s.accounts, c.provider) && LoneSynthetic(s.accounts, c.provider, k) {
      var k :| k in Owned(s.accounts, c.provider) && LoneSynthetic(s.accounts, c.provider, k);
      assert k == id;
      assert Unpinned(s.targets, {}) == s.targets;
    } else {
      assert !LoneSynthetic(s.accounts, c.provider, id);
    }
  }

  /** Secrets aside, two table states are the same. */
  predicate SameButSecrets(s: Tables, r: Tables) {
    && s.targets == r.targets && s.accounts.Keys == r.accounts.Keys
    && forall id :: id in s.accounts ==> s.accounts[id].(secretEnc := "") == r.accounts[id].(secretEnc := "")
  }

  /** Repeating a mode changes nothing but the encryption of the empty secret. */
  lemma ReconcileIsIdempotent(s: Tables, c: Change, again: Change)
    requires c.newId !in s.accounts && again.provider == c.provider && again.mode == c.mode
    ensures SameButSecrets(Reconciled(s, c), Reconciled(Reconciled(s, c), again))
    ensures c.mode != NoCredential ==> Reconciled(Reconciled(s, c), again) == Reconciled(s, c)
  {
    var r := Reconciled(s, c);
    ReconcileEstablishes(s, c);
    if c.mode == NoCredential {
      var id :| id in r.accounts && LonePlaceholder(r, c, id);
      assert LoneSynthetic(r.accounts, c.provider, id);
      assert id in Owned(r.accounts, c.provider);
    } else {
      var none := set id | id in Owned(r.accounts, c.provider) && Synthetic(r.accounts[id]);
      assert none == {};
      assert r.accounts - none == r.accounts && Unpinned(r.targets, none) == r.targets;
    }
  }

  // ---------- Runs ----------

  function After(s: Tables, cs: seq<Change>): Tables {
    if cs == [] then s else Reconciled(After(s, cs[..|cs| - 1]), cs[|cs| - 1])
  }

  predicate FreshIds(s: Tables, cs: seq<Change>) {
    cs == [] || (FreshIds(s, cs[..|cs| - 1]) && cs[|cs| - 1].newId !in After(s, cs[..|cs| - 1]).accounts)
  }

  /** The change last asked of a provider. */
  function LastChange(cs: seq<Change>, provider: string): Option<Change> {
    if cs == [] then None
    else if cs[|cs| - 1].provider == provider then Some(cs[|cs| - 1])
    else LastChange(cs[..|cs| - 1], provider)
  }

  lemma {:induction false} LastChangeIsOurs(cs: seq<Change>, provider: string)
    ensures LastChange(cs, provider).Some? ==> LastChange(cs, provider).value.provider == provider
  {
    if cs != [] { LastChangeIsOurs(cs[..|cs| - 1], provider); }
  }

  lemma OthersKeepMode(s: Tables, c: Change, other: Change)
    requires c.newId !in s.accounts && other.provider != c.provider && InMode(s, other)
    ensures InMode(Reconciled(s, c), other)
  {
    ReconcileFrame(s, c);
    var r := Reconciled(s, c);
    assert Owned(r.accounts, other.provider) == Owned(s.accounts, other.provider);
    if other.mode == NoCredential {
      var id :| id in s.accounts && LonePlaceholder(s, other, id);
      assert id in Owned(s.accounts, other.provider);
      assert LonePlaceholder(r, other, id);
    }
  }

  /** Across any sequence of mode changes every provider is in the state last asked of it, and no route target refers to
      an account that is gone. */
  lemma {:induction false} RunsKeepModes(s: Tables, cs: seq<Change>, provider: string)
    requires FreshIds(s, cs)
    ensures LastChange(cs, provider).Some? ==> InMode(After(s, cs), LastChange(cs, provider).value)
    ensures NoDangling(s) ==> NoDangling(After(s, cs))
  {
    if cs != [] {
      var before, c := After(s, cs[..|cs| - 1]), cs[|cs| - 1];
      RunsKeepModes(s, cs[..|cs| - 1], provider);
      LastChangeIsOurs(cs, provider);
      ReconcileEstablishes(before, c);
      if c.provider != provider && LastChange(cs, provider).Some? {
        OthersKeepMode(before, c, LastChange(cs, provider).value);
      }
    }
  }

  predicate Untouched(cs: seq<Change>, provider: string) {
    LastChange(cs, provider).None?
  }

  /** The target is pinned to an account of this provider. */
  predicate PinnedTo(s: Tables, t: string, provider: string)
    requires t in s.targets
  {
    s.targets[t].accountId.Some? && s.targets[t].accountId.value in Owned(s.accounts, provider)
  }

  lemma OthersStay(s: Tables, c: Change, provider: string)
    requires c.newId !in s.accounts && provider != c.provider
    ensures var r := Reconciled(s, c);
      && Owned(r.accounts, provider) == Owned(s.accounts, provider)
      && (forall id :: id in Owned(s.accounts, provider) ==> r.accounts[id] == s.accounts[id])
      && (forall t :: t in s.targets && PinnedTo(s, t, provider) ==> t in r.targets && r.targets[t] == s.targets[t])
  {
    ReconcileFrame(s, c);
  }

  /** Across any sequence of mode changes the accounts of a provider that none of them names stay the same, and so do
      the route targets pinned to these accounts. */
  lemma {:induction false} RunsKeepOthers(s: Tables, cs: seq<Change>, provider: string)
    requires FreshIds(s, cs) && Untouched(cs, provider)
    ensures Owned(After(s, cs).accounts, provider) == Owned(s.accounts, provider)
    ensures forall id :: id in Owned(s.accounts, provider) ==> After(s, cs).accounts[id] == s.accounts[id]
    ensures forall t :: t in s.targets && PinnedTo(s, t, provider) ==>
      t in After(s, cs).targets && After(s, cs).targets[t] == s.targets[t]
  {
    if cs != [] {
      var before := After(s, cs[..|cs| - 1]);
      RunsKeepOthers(s, cs[..|cs| - 1], provider);
      OthersStay(before, cs[|cs| - 1], provider);
      forall t | t in s.targets && PinnedTo(s, t, provider) ensures PinnedTo(before, t, provider) {
        assert s.targets[t].accountId.value in Owned(s.accounts, provider);
      }
    }
  }

  // ---------- Which real accounts survive ----------

  lemma MaskHidesShort(secret: string)
    ensures MaskSecret(secret) == MaskSecret("public") <==> |secret| <= 10
  {
  }

  /** An account stored with the mask of its secret survives a credential mode exactly when it carries neither the
      internal label nor the label "public" together with a secret of at most ten characters: every such short
      secret has the mask by which the legacy placeholder is recognised. */
  lemma AccountSurvives(s: Tables, c: Change, id: string, secret: string)
    requires c.mode != NoCredential && id in s.accounts && s.accounts[id].providerId == c.provider
    requires s.accounts[id].keyMask == MaskSecret(secret)
    ensures id in Reconciled(s, c).accounts <==>
      (s.accounts[id].tag != "__kinetix_noauth__" && (s.accounts[id].tag == "public" ==> |secret| > 10))
  {
    MaskHidesShort(secret);
  }

  /** So a user's own short key under the label "public" is removed with the placeholders. */
  lemma ShortPublicKeyIsRemoved(health: Health, createdAt: string, secretEnc: string)
    ensures var mine := Account("p", "public", secretEnc, MaskSecret("mine"), health, createdAt);
      var s := Tables(map["a" := mine], map["t" := Target(Some("a"), "m")]);
      Reconciled(s, Change("p", Manual, "", "b", createdAt)) == Tables(map[], map["t" := Target(None, "m")])
  {
    var mine := Account("p", "public", secretEnc, MaskSecret("mine"), health, createdAt);
    var s := Tables(map["a" := mine], map["t" := Target(Some("a"), "m")]);
    var gone := set id | id in Owned(s.accounts, "p") && Synthetic(s.accounts[id]);
    assert gone == {"a"};
    assert Unpinned(s.targets, gone) == map["t" := Target(None, "m")];
  }
}
