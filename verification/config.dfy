/** Client configuration (config.go): the Config struct as a mutable object,
    its value, the defaults, the ordered check of the required fields, and the
    options that overwrite named fields of a Config in place. */
module ClientConfig {
  import opened Wrappers
  import opened Errors

  /** One second of time.Duration, which counts nanoseconds. */
  const Second: int := 1_000_000_000

  const DefaultTimeout: int := 30 * Second
  const DefaultUID: string := "12345"
  const DefaultAuditing: string := "default"

  /** The value held by a Config at one moment. */
  datatype ConfigValue = ConfigValue(
    appID: string,
    apiSecret: string,
    apiKey: string,
    hostURL: string,
    embURL: string,
    domain: string,
    timeout: int,
    uid: string,
    auditing: string)

  /** The fields of Config, by name. */
  datatype Field = AppID | ApiSecret | ApiKey | HostURL | EMBURL | Domain | Timeout | UID | Auditing

  /** What a field holds: text, or for Timeout a duration. */
  datatype FieldValue = Text(s: string) | Duration(d: int)

  function Get(c: ConfigValue, f: Field): FieldValue
  {
    match f
    case AppID => Text(c.appID)
    case ApiSecret => Text(c.apiSecret)
    case ApiKey => Text(c.apiKey)
    case HostURL => Text(c.hostURL)
    case EMBURL => Text(c.embURL)
    case Domain => Text(c.domain)
    case Timeout => Duration(c.timeout)
    case UID => Text(c.uid)
    case Auditing => Text(c.auditing)
  }

  /** DefaultConfig: timeout 30s, UID "12345", auditing "default", every
      credential, URL and the domain empty. */
  function DefaultConfig(): (c: ConfigValue)
    ensures forall f :: f in {AppID, ApiSecret, ApiKey, HostURL, EMBURL, Domain} ==> Get(c, f) == Text("")
    ensures c.timeout == 30 * Second && c.uid == "12345" && c.auditing == "default"
  {
    ConfigValue("", "", "", "", "", "", DefaultTimeout, DefaultUID, DefaultAuditing)
  }

  /** The fields validateConfig requires, in the order it checks them. */
  const Required: seq<Field> := [AppID, ApiSecret, ApiKey, HostURL]

  function FieldName(f: Field): string
  {
    match f
    case AppID => "AppID"
    case ApiSecret => "ApiSecret"
    case ApiKey => "ApiKey"
    case HostURL => "HostURL"
    case EMBURL => "EMBURL"
    case Domain => "Domain"
    case Timeout => "Timeout"
    case UID => "UID"
    case Auditing => "Auditing"
  }

  /** validateConfig: nil when AppID, ApiSecret, ApiKey and HostURL are all
      set; otherwise the error "<Field> is required" for the first of them, in
      that order, that is empty. */
  function ValidateConfig(c: ConfigValue): (err: Option<Cause>)
    ensures err.None? <==> forall i :: 0 <= i < |Required| ==> Get(c, Required[i]) != Text("")
    ensures err.Some? ==>
              exists i :: 0 <= i < |Required| &&
                Get(c, Required[i]) == Text("") &&
                (forall j :: 0 <= j < i ==> Get(c, Required[j]) != Text("")) &&
                err.value == Plain(FieldName(Required[i]) + " is required")
  {
    assert Required == [AppID, ApiSecret, ApiKey, HostURL];
    if c.appID == "" then
      assert Get(c, Required[0]) == Text("") && FieldName(Required[0]) + " is required" == "AppID is required";
      Some(Plain("AppID is required"))
    else if c.apiSecret == "" then
      assert Get(c, Required[1]) == Text("") && FieldName(Required[1]) + " is required" == "ApiSecret is required";
      Some(Plain("ApiSecret is required"))
    else if c.apiKey == "" then
      assert Get(c, Required[2]) == Text("") && FieldName(Required[2]) + " is required" == "ApiKey is required";
      Some(Plain("ApiKey is required"))
    else if c.hostURL == "" then
      assert Get(c, Required[3]) == Text("") && FieldName(Required[3]) + " is required" == "HostURL is required";
      Some(Plain("HostURL is required"))
    else None
  }

  /** Only the four required fields are examined: configurations that agree
      on them validate alike, whatever their EMBURL, Domain, Timeout, UID and
      Auditing. */
  lemma ValidationIgnoresOptionalFields(c: ConfigValue, d: ConfigValue)
    requires forall i :: 0 <= i < |Required| ==> Get(c, Required[i]) == Get(d, Required[i])
    ensures ValidateConfig(c) == ValidateConfig(d)
  {
    assert Get(c, Required[0]) == Get(d, Required[0]);
    assert Get(c, Required[1]) == Get(d, Required[1]);
    assert Get(c, Required[2]) == Get(d, Required[2]);
    assert Get(c, Required[3]) == Get(d, Required[3]);
  }

  /** The ConfigOption closures, as data. */
  datatype ConfigOption =
    | WithTimeout(timeout: int)
    | WithUID(uid: string)
    | WithAuditing(auditing: string)
    | WithCredentials(appID: string, apiKey: string, apiSecret: string)
    | WithURLs(hostURL: string, embURL: string)
    | WithDomain(domain: string)
    | WithConfig(config: ConfigValue)

  /** The fields an option assigns. */
  function Assigns(o: ConfigOption): set<Field>
  {
    match o
    case WithTimeout(_) => {Timeout}
    case WithUID(_) => {UID}
    case WithAuditing(_) => {Auditing}
    case WithCredentials(_, _, _) => {AppID, ApiKey, ApiSecret}
    case WithURLs(_, _) => {HostURL, EMBURL}
    case WithDomain(_) => {Domain}
    case WithConfig(_) => {AppID, ApiSecret, ApiKey, HostURL, EMBURL, Domain, Timeout, UID, Auditing}
  }

  /** The value an option writes into field `f`, one field at a time. */
  function Written(o: ConfigOption, f: Field): FieldValue
    requires f in Assigns(o)
  {
    match o
    case WithTimeout(t) => Duration(t)
    case WithUID(u) => Text(u)
    case WithAuditing(a) => Text(a)
    case WithCredentials(appID, apiKey, apiSecret) =>
      if f == AppID then Text(appID) else if f == ApiKey then Text(apiKey) else Text(apiSecret)
    case WithURLs(hostURL, embURL) => if f == HostURL then Text(hostURL) else Text(embURL)
    case WithDomain(d) => Text(d)
    case WithConfig(cfg) => Get(cfg, f)
  }

  /** The effect of running one option on a Config holding `c`: the fields it
      names get the values it carries, every other field keeps its value. */
  function ApplyOption(c: ConfigValue, o: ConfigOption): (r: ConfigValue)
    ensures forall f :: f in Assigns(o) ==> Get(r, f) == Written(o, f)
    ensures forall f :: f !in Assigns(o) ==> Get(r, f) == Get(c, f)
  {
    match o
    case WithTimeout(t) => c.(timeout := t)
    case WithUID(u) => c.(uid := u)
    case WithAuditing(a) => c.(auditing := a)
    case WithCredentials(appID, apiKey, apiSecret) => c.(appID := appID, apiKey := apiKey, apiSecret := apiSecret)
    case WithURLs(hostURL, embURL) => c.(hostURL := hostURL, embURL := embURL)
    case WithDomain(d) => c.(domain := d)
    case WithConfig(cfg) => cfg
  }

  /** WithConfig replaces every field: the result is the carried value,
      whatever the Config held before. */
  lemma WithConfigReplacesAll(c: ConfigValue, cfg: ConfigValue)
    ensures ApplyOption(c, WithConfig(cfg)) == cfg
  {
  }

  /** Running `opts` in order on a Config holding `c`. */
  function ApplyAll(c: ConfigValue, opts: seq<ConfigOption>): ConfigValue
    decreases |opts|
  {
    if opts == [] then c else ApplyOption(ApplyAll(c, opts[..|opts| - 1]), opts[|opts| - 1])
  }

  /** The index of the last option in `opts` that assigns `f`, if any. */
  function LastAssigning(opts: seq<ConfigOption>, f: Field): (i: Option<nat>)
    ensures i.Some? ==> i.value < |opts| && f in Assigns(opts[i.value])
    ensures i.Some? ==> forall j :: i.value < j < |opts| ==> f !in Assigns(opts[j])
    ensures i.None? ==> forall j :: 0 <= j < |opts| ==> f !in Assigns(opts[j])
    decreases |opts|
  {
    if opts == [] then None
    else if f in Assigns(opts[|opts| - 1]) then Some(|opts| - 1)
    else LastAssigning(opts[..|opts| - 1], f)
  }

  /** Later options win: after running `opts`, each field holds what the last
      option naming it wrote, or its starting value when no option names it. */
  lemma {:induction false} LaterOptionWins(c: ConfigValue, opts: seq<ConfigOption>, f: Field)
    ensures Get(ApplyAll(c, opts), f) ==
            match LastAssigning(opts, f)
            case Some(i) => Written(opts[i], f)
            case None => Get(c, f)
    decreases |opts|
  {
    if opts != [] {
      var n := |opts|;
      if f !in Assigns(opts[n - 1]) {
        LaterOptionWins(c, opts[..n - 1], f);
        match LastAssigning(opts[..n - 1], f)
        case Some(i) => assert opts[..n - 1][i] == opts[i];
        case None =>
      }
    }
  }

  /** With only the URLs set, validation fails on the first required field:
      "AppID is required". */
  lemma OnlyURLsNeedsAppID(host: string, emb: string)
    ensures ValidateConfig(ApplyAll(DefaultConfig(), [WithURLs(host, emb)])) == Some(Plain("AppID is required"))
  {
    assert [WithURLs(host, emb)][..0] == [];
  }

  /** Credentials plus a host URL are all a valid configuration needs. */
  lemma CredentialsAndHostSuffice(appID: string, apiKey: string, apiSecret: string, host: string, emb: string)
    requires appID != "" && apiKey != "" && apiSecret != "" && host != ""
    ensures ValidateConfig(ApplyAll(DefaultConfig(), [WithCredentials(appID, apiKey, apiSecret), WithURLs(host, emb)])) == None
  {
    var opts := [WithCredentials(appID, apiKey, apiSecret), WithURLs(host, emb)];
    assert opts[..1][..0] == [];
    assert opts[..1] == [WithCredentials(appID, apiKey, apiSecret)];
  }

  /** The Config struct, updated in place by the options. */
  class Config {
    var appID: string
    var apiSecret: string
    var apiKey: string
    var hostURL: string
    var embURL: string
    var domain: string
    var timeout: int
    var uid: string
    var auditing: string

    function Value(): ConfigValue
      reads this
    {
      ConfigValue(appID, apiSecret, apiKey, hostURL, embURL, domain, timeout, uid, auditing)
    }

    /** A fresh Config holding DefaultConfig(). */
    constructor Default()
      ensures Value() == DefaultConfig()
    {
      appID, apiSecret, apiKey, hostURL, embURL, domain := "", "", "", "", "", "";
      timeout, uid, auditing := DefaultTimeout, DefaultUID, DefaultAuditing;
    }

    /** A fresh Config holding a copy of `other`'s fields (`*other`). */
    constructor Copy(other: Config)
      ensures Value() == other.Value()
    {
      appID, apiSecret, apiKey, hostURL, embURL := other.appID, other.apiSecret, other.apiKey, other.hostURL, other.embURL;
      domain, timeout, uid, auditing := other.domain, other.timeout, other.uid, other.auditing;
    }

    /** Runs option `o` on this Config: assigns the fields it names. */
    method Apply(o: ConfigOption)
      modifies this
      ensures Value() == ApplyOption(old(Value()), o)
    {
      match o
      case WithTimeout(t) => timeout := t;
      case WithUID(u) => uid := u;
      case WithAuditing(a) => auditing := a;
      case WithCredentials(id, key, secret) =>
        appID := id;
        apiKey := key;
        apiSecret := secret;
      case WithURLs(host, emb) =>
        hostURL := host;
        embURL := emb;
      case WithDomain(d) => domain := d;
      case WithConfig(cfg) =>
        appID, apiSecret, apiKey, hostURL, embURL := cfg.appID, cfg.apiSecret, cfg.apiKey, cfg.hostURL, cfg.embURL;
        domain, timeout, uid, auditing := cfg.domain, cfg.timeout, cfg.uid, cfg.auditing;
    }

    /** Runs `opts` in order on this Config (the loop of NewSparkClient and
        WithNewConfig). */
    method ApplyOptions(opts: seq<ConfigOption>)
      modifies this
      ensures Value() == ApplyAll(old(Value()), opts)
    {
      for i := 0 to |opts|
        invariant Value() == ApplyAll(old(Value()), opts[..i])
      {
        assert opts[..i + 1][..i] == opts[..i];
        Apply(opts[i]);
      }
      assert opts[..|opts|] == opts;
    }
  }
}
