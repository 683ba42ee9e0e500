/** ResolveProviderConfig
    (terraform-provider-lab/internal/config/provider_config.go): an explicit
    value overrides the environment unless it is blank, and both results are
    trimmed of surrounding white space. */
module ProviderConfig {
  import opened Common

  datatype Resolved = Resolved(endpoint: string, apiKey: string)

  /** One setting: the trimmed explicit value, or the trimmed environment
      value when the explicit one is blank. */
  function Setting(explicit: string, env: string): string {
    var value := TrimSpace(explicit);
    if value != "" then value else TrimSpace(env)
  }

  /** The meaning of one setting: a non-blank explicit value wins and is
      trimmed, a blank one falls back to the trimmed environment value, and
      the result is "" only when both are blank. */
  lemma SettingMeaning(explicit: string, env: string)
    ensures !AllSpace(explicit) ==> Setting(explicit, env) == TrimSpace(explicit)
    ensures AllSpace(explicit) ==> Setting(explicit, env) == TrimSpace(env)
    ensures TrimSpace(Setting(explicit, env)) == Setting(explicit, env)
    ensures Setting(explicit, env) == "" <==> AllSpace(explicit) && AllSpace(env)
  {
    TrimSpaceEmpty(explicit);
    TrimSpaceEmpty(env);
    TrimSpaceIdempotent(explicit);
    TrimSpaceIdempotent(env);
  }

  function ResolveProviderConfig(configEndpoint: string, configApiKey: string, envEndpoint: string, envApiKey: string): Resolved {
    Resolved(Setting(configEndpoint, envEndpoint), Setting(configApiKey, envApiKey))
  }

  /** An explicit value overrides; a blank one falls back to the trimmed
      environment; both results are free of surrounding white space; with
      both sources blank the result is "". */
  lemma Precedence(configEndpoint: string, configApiKey: string, envEndpoint: string, envApiKey: string)
    ensures var r := ResolveProviderConfig(configEndpoint, configApiKey, envEndpoint, envApiKey);
            (!AllSpace(configEndpoint) ==> r.endpoint == TrimSpace(configEndpoint))
            && (AllSpace(configEndpoint) ==> r.endpoint == TrimSpace(envEndpoint))
            && (!AllSpace(configApiKey) ==> r.apiKey == TrimSpace(configApiKey))
            && (AllSpace(configApiKey) ==> r.apiKey == TrimSpace(envApiKey))
            && TrimSpace(r.endpoint) == r.endpoint && TrimSpace(r.apiKey) == r.apiKey
    ensures ResolveProviderConfig("", "", "", "") == Resolved("", "")
  {
    SettingMeaning(configEndpoint, envEndpoint);
    SettingMeaning(configApiKey, envApiKey);
  }

  /** The endpoint does not depend on the key's inputs, nor the key on the
      endpoint's. */
  lemma Independence(ce: string, ck: string, ee: string, ek: string, ck2: string, ek2: string, ce2: string, ee2: string)
    ensures ResolveProviderConfig(ce, ck, ee, ek).endpoint == ResolveProviderConfig(ce, ck2, ee, ek2).endpoint
    ensures ResolveProviderConfig(ce, ck, ee, ek).apiKey == ResolveProviderConfig(ce2, ck, ee2, ek).apiKey
  {
  }

  /** Only white space is removed: a trailing '/' is kept. */
  lemma SlashIsKept()
    ensures ResolveProviderConfig(" http://h/ ", "k", "", "").endpoint == "http://h/"
  {
    var e := " http://h/ ";
    assert IsSpace(e[0]) && !IsSpace(e[1..][0]);
    assert TrimLeftSpace(e) == e[1..];
    var l := e[1..];
    assert IsSpace(l[|l| - 1]) && !IsSpace(l[..|l| - 1][|l| - 2]);
    assert TrimRightSpace(l) == l[..|l| - 1];
    assert l[..|l| - 1] == "http://h/";
    assert !AllSpace(e) by { assert !IsSpace(e[1]); }
  }
}
