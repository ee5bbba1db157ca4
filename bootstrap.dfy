/** The secret-seeding block of `Module.init` (module.py:81-88): read every secret,
    and for each of the two default-table keys that is missing, store the serialised
    default table under it and write the whole map back. */
module Bootstrap {
  import DefaultTables

  /** The secret-store key of the capability table (the source's spelling). */
  const CapabilitiesKey: string := "open_ai_capatibilities_map"
  /** The secret-store key of the token-limit table. */
  const TokenLimitsKey: string := "open_ai_token_limits"

  /** The two keys seeding takes care of. */
  const DefaultKeys: set<string> := {CapabilitiesKey, TokenLimitsKey}

  /** The serialised default tables, `json.dumps(CAPATIBILITIES_MAP)` and
      `json.dumps(TOKEN_LIMITS)`. Seeding only moves these texts around, so the
      definitions below take them as values rather than looking inside them. */
  datatype DefaultTexts = DefaultTexts(capabilities: string, tokenLimits: string) {
    /** Each default key with the text stored under it. */
    function AsMap(): (m: map<string, string>)
      ensures m.Keys == DefaultKeys
    {
      map[CapabilitiesKey := capabilities, TokenLimitsKey := tokenLimits]
    }
  }

  /** The texts module.py serialises. */
  function Defaults(): DefaultTexts
  {
    DefaultTexts(DefaultTables.CapabilitiesJson(), DefaultTables.TokenLimitsJson())
  }

  /** The secrets after seeding, defined at once: the default tables overlaid by
      whatever is already stored, so a stored value always wins over a default. */
  function Seeded(secrets: map<string, string>, texts: DefaultTexts): (r: map<string, string>)
    ensures DefaultKeys <= r.Keys
    ensures r.Keys == secrets.Keys + DefaultKeys
    ensures forall k :: k in secrets ==> r[k] == secrets[k]
    ensures CapabilitiesKey !in secrets ==> r[CapabilitiesKey] == texts.capabilities
    ensures TokenLimitsKey !in secrets ==> r[TokenLimitsKey] == texts.tokenLimits
  {
    texts.AsMap() + secrets
  }

  /** How many of the default keys are missing: the number of writes seeding makes. */
  function MissingDefaults(secrets: map<string, string>): nat
  {
    |DefaultKeys - secrets.Keys|
  }

  /** At most two writes, and none exactly when both tables are already stored. */
  lemma MissingDefaultsBounds(secrets: map<string, string>)
    ensures MissingDefaults(secrets) <= 2
    ensures MissingDefaults(secrets) == 0 <==> CapabilitiesKey in secrets && TokenLimitsKey in secrets
  {
    MissingDefaultsCount(secrets);
  }

  /** Seeding its own output changes nothing and writes nothing. */
  lemma SeedingIdempotent(secrets: map<string, string>, texts: DefaultTexts)
    ensures Seeded(Seeded(secrets, texts), texts) == Seeded(secrets, texts)
    ensures MissingDefaults(Seeded(secrets, texts)) == 0
  {
    assert DefaultKeys - Seeded(secrets, texts).Keys == {};
  }

  /** The secret store as `VaultClient` shows it: the stored map and the number of
      `set_secrets` calls made so far. */
  class Vault {
    var secrets: map<string, string>
    var setCalls: nat

    constructor (initial: map<string, string>)
      ensures secrets == initial && setCalls == 0
    {
      secrets := initial;
      setCalls := 0;
    }

    /** `get_all_secrets()`: a copy of every stored secret. */
    method GetAllSecrets() returns (all: map<string, string>)
      ensures all == secrets
    {
      all := secrets;
    }

    /** `set_secrets(m)`: replace the stored secrets with `m`. */
    method SetSecrets(m: map<string, string>)
      modifies this
      ensures secrets == m
      ensures setCalls == old(setCalls) + 1
    {
      secrets := m;
      setCalls := setCalls + 1;
    }
  }

  /** The seeding block of `Module.init`: the store ends up `Seeded`, with one
      `set_secrets` call per missing default key. */
  method SeedDefaults(vault: Vault)
    modifies vault
    ensures vault.secrets == Seeded(old(vault.secrets), Defaults())
    ensures vault.setCalls == old(vault.setCalls) + MissingDefaults(old(vault.secrets))
  {
    ghost var before := vault.secrets;
    var texts := Defaults();
    var secrets := vault.GetAllSecrets();
    if CapabilitiesKey !in secrets {
      secrets := secrets[CapabilitiesKey := texts.capabilities];
      vault.SetSecrets(secrets);
    }
    if TokenLimitsKey !in secrets {
      secrets := secrets[TokenLimitsKey := texts.tokenLimits];
      vault.SetSecrets(secrets);
    }
    SeededStepwise(before, texts);
    MissingDefaultsCount(before);
  }

  /** `Seeded` is what the two guarded updates of the source compute, in order. */
  lemma SeededStepwise(secrets: map<string, string>, texts: DefaultTexts)
    ensures var first := if CapabilitiesKey in secrets then secrets
                         else secrets[CapabilitiesKey := texts.capabilities];
      Seeded(secrets, texts) == if TokenLimitsKey in first then first
                                else first[TokenLimitsKey := texts.tokenLimits]
  {
    assert CapabilitiesKey != TokenLimitsKey by { assert |CapabilitiesKey| != |TokenLimitsKey|; }
    GuardedUpdates(secrets, CapabilitiesKey, texts.capabilities, TokenLimitsKey, texts.tokenLimits);
  }

  /** Two guarded insertions of distinct keys overlay the pair on the map. */
  lemma GuardedUpdates(m: map<string, string>, a: string, va: string, b: string, vb: string)
    requires a != b
    ensures var first := if a in m then m else m[a := va];
      (if b in first then first else first[b := vb]) == map[a := va, b := vb] + m
  {
  }

  /** The number of missing default keys, one key at a time. */
  lemma MissingDefaultsCount(secrets: map<string, string>)
    ensures MissingDefaults(secrets) ==
      (if CapabilitiesKey in secrets then 0 else 1) + (if TokenLimitsKey in secrets then 0 else 1)
  {
    assert CapabilitiesKey != TokenLimitsKey by { assert |CapabilitiesKey| != |TokenLimitsKey|; }
    MissingOfTwo(CapabilitiesKey, TokenLimitsKey, secrets.Keys);
  }

  /** How many of two distinct keys a key set lacks. */
  lemma MissingOfTwo(a: string, b: string, keys: set<string>)
    requires a != b
    ensures |{a, b} - keys| == (if a in keys then 0 else 1) + (if b in keys then 0 else 1)
  {
    var missing := {a, b} - keys;
    if a in keys && b in keys {
      assert missing == {};
    } else if a in keys {
      assert missing == {b};
    } else if b in keys {
      assert missing == {a};
    } else {
      assert missing == {a, b};
    }
  }

  /** Two activations in a row: the second finds both tables and writes nothing, so the
      store and the call count are those of a single activation. */
  method SeedTwice(vault: Vault)
    modifies vault
    ensures vault.secrets == Seeded(old(vault.secrets), Defaults())
    ensures vault.setCalls == old(vault.setCalls) + MissingDefaults(old(vault.secrets))
  {
    SeedDefaults(vault);
    SeedingIdempotent(old(vault.secrets), Defaults());
    SeedDefaults(vault);
  }
}
