/** The two static tables of module.py: which model ids support which mode, and the
    context-window token limit of each known model. Both are Python dictionaries;
    their entries are kept here in insertion order, the order `json.dumps` writes. */
module DefaultTables {
  import opened Outcomes
  import JsonText

  /** `CAPATIBILITIES_MAP` (the source's spelling): mode name to the ids of the models
      that support it. */
  const CapabilitiesMap: seq<(string, seq<string>)> := [
    ("completion",
      ["gpt-3.5-turbo-instruct", "babbage-002", "davinci-002"]),
    ("chat_completion",
      ["gpt-4o-mini", "gpt-4o", "gpt-4-turbo", "gpt-4", "gpt-4-0613", "gpt-4-32k", "gpt-4-32k-0613",
       "gpt-3.5-turbo", "gpt-3.5-turbo-0613", "gpt-3.5-turbo-16k", "gpt-3.5-turbo-16k-0613"]),
    ("embeddings",
      ["text-embedding-ada-002"])
  ]

  /** `TOKEN_LIMITS`: model id to its token limit; `None` marks an unknown limit. */
  const TokenLimits: seq<(string, Option<nat>)> := [
    ("gpt-3.5-turbo-instruct", Some(4097)),
    ("babbage-002", Some(16384)),
    ("davinci-002", Some(16384)),
    ("gpt-4", Some(8192)),
    ("gpt-4-0613", Some(8192)),
    ("gpt-4-32k", Some(32768)),
    ("gpt-4-32k-0613", Some(32768)),
    ("gpt-3.5-turbo", Some(4097)),
    ("gpt-3.5-turbo-0613", Some(4097)),
    ("gpt-3.5-turbo-16k", Some(16385)),
    ("gpt-3.5-turbo-16k-0613", Some(16385)),
    ("text-embedding-ada-002", None),
    ("text-davinci-003", Some(4097)),
    ("text-davinci-002", Some(4097)),
    ("code-davinci-002", Some(8001))
  ]

  /** The ids listed under the `i`-th mode. */
  function ModeIds(i: nat): set<string>
    requires i < |CapabilitiesMap|
  {
    set id | id in CapabilitiesMap[i].1
  }

  /** `json.dumps(CAPATIBILITIES_MAP)`: reading the stored text back gives the table. */
  function CapabilitiesJson(): (r: string)
    ensures JsonText.ReadArrayTable(r) == Some(CapabilitiesMap)
  {
    JsonText.ArrayTableRoundTrip(CapabilitiesMap);
    JsonText.ArrayTable(CapabilitiesMap)
  }

  /** `json.dumps(TOKEN_LIMITS)`, with `None` written `null`: reading the stored text
      back gives the table. */
  function TokenLimitsJson(): (r: string)
    ensures JsonText.ReadLimitTable(r) == Some(TokenLimits)
  {
    JsonText.LimitTableRoundTrip(TokenLimits);
    JsonText.LimitTable(TokenLimits)
  }

  /** The three mode lists are pairwise disjoint: no model is listed under two modes. */
  lemma ModeListsDisjoint()
    ensures forall i, j :: 0 <= i < j < |CapabilitiesMap| ==> ModeIds(i) !! ModeIds(j)
  {
  }

  /** Every known limit is positive, and the only unknown one is the embeddings model's:
      `None` marks an unknown limit, never a zero. */
  lemma TokenLimitsWellFormed()
    ensures forall k :: 0 <= k < |TokenLimits| && TokenLimits[k].1.Some? ==> TokenLimits[k].1.value > 0
    ensures forall k :: 0 <= k < |TokenLimits| ==>
      (TokenLimits[k].1.None? <==> TokenLimits[k].0 == "text-embedding-ada-002")
  {
  }

  /** The ids of the token-limit table, in order. */
  function LimitKeys(): (keys: seq<string>)
    ensures |keys| == |TokenLimits|
    ensures forall k :: 0 <= k < |TokenLimits| ==> keys[k] == TokenLimits[k].0
  {
    seq(|TokenLimits|, k requires 0 <= k < |TokenLimits| => TokenLimits[k].0)
  }

  lemma LimitKeysText()
    ensures LimitKeys() == ["gpt-3.5-turbo-instruct", "babbage-002", "davinci-002", "gpt-4", "gpt-4-0613",
                            "gpt-4-32k", "gpt-4-32k-0613", "gpt-3.5-turbo", "gpt-3.5-turbo-0613",
                            "gpt-3.5-turbo-16k", "gpt-3.5-turbo-16k-0613", "text-embedding-ada-002",
                            "text-davinci-003", "text-davinci-002", "code-davinci-002"]
  {
  }

  /** Every model of the capability table has a token-limit entry except the first three
      chat models ("gpt-4o-mini", "gpt-4o", "gpt-4-turbo"), whose limit is therefore
      not known to this module. */
  lemma LimitsCoverage()
    ensures forall i, k :: 0 <= i < |CapabilitiesMap| && 0 <= k < |CapabilitiesMap[i].1| ==>
      (CapabilitiesMap[i].1[k] in LimitKeys() <==> !(i == 1 && k < 3))
  {
    LimitKeysText();
  }

}
