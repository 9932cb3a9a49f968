/** Protocol families.  A provider identifier such as `claude-kiro-oauth` names
    one backend; the text before its first hyphen names the wire protocol it
    speaks.  Every "does this payload need converting?" decision of the
    dispatch layer compares these family prefixes, never the raw identifiers. */
module Protocol {
  import opened Wrappers

  // The three protocol families (MODEL_PROTOCOL_PREFIX).
  const GEMINI: string := "gemini"
  const OPENAI: string := "openai"
  const CLAUDE: string := "claude"

  // The known provider identifiers (MODEL_PROVIDER).
  const GEMINI_CLI: string := "gemini-cli-oauth"
  const OPENAI_CUSTOM: string := "openai-custom"
  const CLAUDE_CUSTOM: string := "claude-custom"
  const KIRO_API: string := "claude-kiro-oauth"
  const QWEN_API: string := "openai-qwen-oauth"

  // The endpoint kinds the router resolves a request to (ENDPOINT_TYPE).
  const OPENAI_CHAT: string := "openai_chat"
  const GEMINI_CONTENT: string := "gemini_content"
  const CLAUDE_MESSAGE: string := "claude_message"
  const OPENAI_MODEL_LIST: string := "openai_model_list"
  const GEMINI_MODEL_LIST: string := "gemini_model_list"

  /** `s.indexOf(c)`: the first position of `c`, or -1. */
  function IndexOf(s: string, c: char): (i: int)
    ensures -1 <= i < |s|
    ensures i == -1 <==> c !in s
    ensures 0 <= i ==> s[i] == c && c !in s[..i]
  {
    if s == [] then -1
    else if s[0] == c then 0
    else
      var j := IndexOf(s[1..], c);
      if j == -1 then -1 else j + 1
  }

  /** What it means for `r` to be the family prefix of `provider`: a hyphen-free
      prefix that is either all of `provider` or stops right before a hyphen. */
  ghost predicate IsFamilyPrefix(provider: string, r: string) {
    && r <= provider
    && '-' !in r
    && (|r| < |provider| ==> provider[|r|] == '-')
  }

  /** getProtocolPrefix: the text before the first hyphen, or the whole identifier. */
  function ProtocolPrefix(provider: string): (r: string)
    ensures IsFamilyPrefix(provider, r)
  {
    var hyphenIndex := IndexOf(provider, '-');
    if hyphenIndex != -1 then provider[..hyphenIndex] else provider
  }

  /** Conversion is attempted exactly when client and backend families differ. */
  predicate NeedsConversion(fromProvider: string, toProvider: string) {
    ProtocolPrefix(fromProvider) != ProtocolPrefix(toProvider)
  }

  /** The family prefix is the only hyphen-free prefix ending at the identifier's end or at a hyphen. */
  lemma {:induction false} FamilyPrefixUnique(provider: string, r: string)
    requires IsFamilyPrefix(provider, r)
    ensures ProtocolPrefix(provider) == r
  {
    var q := ProtocolPrefix(provider);
    assert q == provider[..|q|] && r == provider[..|r|];
  }

  /** Taking the prefix of a prefix changes nothing. */
  lemma PrefixIdempotent(provider: string)
    ensures ProtocolPrefix(ProtocolPrefix(provider)) == ProtocolPrefix(provider)
  {
    FamilyPrefixUnique(ProtocolPrefix(provider), ProtocolPrefix(provider));
  }

  /** A provider belongs to family `f` exactly when it is `f` itself or starts with `f-`. */
  lemma {:induction false} PrefixCharacterization(provider: string, f: string)
    requires '-' !in f
    ensures ProtocolPrefix(provider) == f <==> provider == f || f + "-" <= provider
  {
    var q := ProtocolPrefix(provider);
    if q == f && provider != f {
      assert |f| < |provider| && provider[|f|] == '-';
      assert provider[..|f| + 1] == f + "-";
    }
    if provider == f {
      FamilyPrefixUnique(provider, f);
    } else if f + "-" <= provider {
      assert provider[|f|] == (f + "-")[|f|] == '-';
      assert f == provider[..|f|];
      FamilyPrefixUnique(provider, f);
    }
  }

  /** A provider identifier that starts with `f` followed by a hyphen belongs to family `f`. */
  lemma FamilyOf(provider: string, f: string)
    requires '-' !in f && |f| < |provider| && provider[..|f|] == f && provider[|f|] == '-'
    ensures ProtocolPrefix(provider) == f
  {
    FamilyPrefixUnique(provider, f);
  }

  lemma GeminiCliFamily() ensures ProtocolPrefix(GEMINI_CLI) == GEMINI {
    assert GEMINI_CLI[..6] == GEMINI && GEMINI_CLI[6] == '-';
    FamilyOf(GEMINI_CLI, GEMINI);
  }

  lemma OpenAICustomFamily() ensures ProtocolPrefix(OPENAI_CUSTOM) == OPENAI {
    assert OPENAI_CUSTOM[..6] == OPENAI && OPENAI_CUSTOM[6] == '-';
    FamilyOf(OPENAI_CUSTOM, OPENAI);
  }

  lemma QwenFamily() ensures ProtocolPrefix(QWEN_API) == OPENAI {
    assert QWEN_API[..6] == OPENAI && QWEN_API[6] == '-';
    FamilyOf(QWEN_API, OPENAI);
  }

  lemma ClaudeCustomFamily() ensures ProtocolPrefix(CLAUDE_CUSTOM) == CLAUDE {
    assert CLAUDE_CUSTOM[..6] == CLAUDE && CLAUDE_CUSTOM[6] == '-';
    FamilyOf(CLAUDE_CUSTOM, CLAUDE);
  }

  lemma KiroFamily() ensures ProtocolPrefix(KIRO_API) == CLAUDE {
    assert KIRO_API[..6] == CLAUDE && KIRO_API[6] == '-';
    FamilyOf(KIRO_API, CLAUDE);
  }

  /** Every known provider identifier falls into one of the three families. */
  lemma KnownProviderFamilies()
    ensures ProtocolPrefix(GEMINI_CLI) == GEMINI
    ensures ProtocolPrefix(OPENAI_CUSTOM) == OPENAI
    ensures ProtocolPrefix(QWEN_API) == OPENAI
    ensures ProtocolPrefix(CLAUDE_CUSTOM) == CLAUDE
    ensures ProtocolPrefix(KIRO_API) == CLAUDE
  {
    GeminiCliFamily();
    OpenAICustomFamily();
    QwenFamily();
    ClaudeCustomFamily();
    KiroFamily();
  }

  /** The two Claude-speaking backends share a family, so a Claude client reaches either
      without conversion, while an OpenAI client reaching Kiro, or a Claude client reaching
      Gemini, is converted. */
  lemma SameFamilyNeverConverts()
    ensures !NeedsConversion(KIRO_API, CLAUDE_CUSTOM)
    ensures !NeedsConversion(CLAUDE, KIRO_API) && !NeedsConversion(OPENAI, QWEN_API)
    ensures NeedsConversion(OPENAI, KIRO_API) && NeedsConversion(CLAUDE, GEMINI_CLI)
  {
    KnownProviderFamilies();
    FamilyPrefixUnique(CLAUDE, CLAUDE);
    FamilyPrefixUnique(OPENAI, OPENAI);
  }

  /** For providers named after hyphen-free families `f` and `g` (the family
      itself or `family-...`), conversion is needed exactly when `f` and `g` differ. */
  lemma NeedsConversionByFamily(p: string, q: string, f: string, g: string)
    requires '-' !in f && '-' !in g
    requires p == f || f + "-" <= p
    requires q == g || g + "-" <= q
    ensures NeedsConversion(p, q) <==> f != g
  {
    PrefixCharacterization(p, f);
    PrefixCharacterization(q, g);
  }

  /** Same-family is an equivalence: conversion is never needed from a provider to itself,
      and the decision does not depend on the direction. */
  lemma NeedsConversionSymmetric(p: string, q: string)
    ensures !NeedsConversion(p, p)
    ensures NeedsConversion(p, q) == NeedsConversion(q, p)
  {
  }

  /** The client family implied by a content-generation endpoint (clientProviderMap);
      `None` for any other endpoint, which the pipeline rejects. */
  function ClientProtocol(endpointType: string): (r: Option<string>)
    ensures r.Some? <==> endpointType in {OPENAI_CHAT, CLAUDE_MESSAGE, GEMINI_CONTENT}
    ensures r.Some? ==> r.value in {OPENAI, CLAUDE, GEMINI}
    ensures r == Some(OPENAI) <==> endpointType == OPENAI_CHAT
    ensures r == Some(CLAUDE) <==> endpointType == CLAUDE_MESSAGE
    ensures r == Some(GEMINI) <==> endpointType == GEMINI_CONTENT
  {
    if endpointType == OPENAI_CHAT then Some(OPENAI)
    else if endpointType == CLAUDE_MESSAGE then Some(CLAUDE)
    else if endpointType == GEMINI_CONTENT then Some(GEMINI)
    else None
  }
}
