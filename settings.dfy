/**
 * The configuration rules the service applies at start-up and before each
 * capture: the CORS origin list, the PayPal credentials check and the choice
 * of the PayPal API host. Environment variables are parameters: `None` is a
 * variable that is not set.
 */
module Settings {
  import opened PyRuntime

  /** `allow_origins` for a CORS_ORIGINS setting: "*" when unset or "*", else the stripped comma-separated pieces. */
  function CorsOrigins(setting: Option<string>): (origins: seq<string>)
    ensures |origins| >= 1
    ensures setting.None? || setting.value == "*" ==> origins == ["*"]
    ensures setting.Some? && setting.value != "*" ==>
              |origins| == |Split(setting.value, ',')|
              && forall i :: 0 <= i < |origins| ==> origins[i] == Strip(Split(setting.value, ',')[i])
  {
    var value := if setting.None? then "*" else setting.value;
    if value == "*" then ["*"]
    else
      StripEach(Split(value, ','))
  }

  /** `[p.strip() for p in pieces]` */
  function StripEach(pieces: seq<string>): (r: seq<string>)
    ensures |r| == |pieces| && forall i :: 0 <= i < |pieces| ==> r[i] == Strip(pieces[i])
  {
    seq(|pieces|, i requires 0 <= i < |pieces| => Strip(pieces[i]))
  }

  /** An origin as it may be written in the list: no comma and no surrounding whitespace. */
  predicate PlainOrigin(origin: string) {
    ',' !in origin && (origin == [] || (!IsSpace(origin[0]) && !IsSpace(origin[|origin| - 1])))
  }

  /** Joining origins that hold no comma and no surrounding whitespace with "," and reading the setting back gives the same list. */
  lemma CorsOriginsRoundTrip(origins: seq<string>)
    requires |origins| >= 1 && origins != ["*"]
    requires forall i :: 0 <= i < |origins| ==> PlainOrigin(origins[i])
    ensures CorsOrigins(Some(Join(",", origins))) == origins
  {
    JoinedOrigins(origins);
    StripEachPlain(origins);
  }

  lemma StripEachPlain(origins: seq<string>)
    requires forall i :: 0 <= i < |origins| ==> PlainOrigin(origins[i])
    ensures StripEach(origins) == origins
  {
    var stripped := StripEach(origins);
    forall i | 0 <= i < |origins|
      ensures stripped[i] == origins[i]
    {
      PlainUnchanged(origins[i]);
    }
  }

  lemma PlainUnchanged(origin: string)
    requires PlainOrigin(origin)
    ensures Strip(origin) == origin
  {
    StripUnpadded(origin);
  }

  /** The comma-joined list splits back into the list, and is not the wildcard. */
  lemma JoinedOrigins(origins: seq<string>)
    requires |origins| >= 1 && origins != ["*"]
    requires forall i :: 0 <= i < |origins| ==> ',' !in origins[i]
    ensures Split(Join(",", origins), ',') == origins
    ensures Join(",", origins) != "*"
  {
    SplitJoin(origins, ',');
    SplitWithoutSeparator("*", ',');
  }

  /** Splitting what was joined with the separator gives back the pieces, when none holds the separator. */
  lemma {:induction false} SplitJoin(parts: seq<string>, sep: char)
    requires |parts| >= 1
    requires forall i :: 0 <= i < |parts| ==> sep !in parts[i]
    ensures Split(Join([sep], parts), sep) == parts
    decreases |parts|
  {
    if |parts| == 1 {
      SplitWithoutSeparator(parts[0], sep);
    } else {
      SplitJoin(parts[1..], sep);
      SplitAtSeparator(parts[0], Join([sep], parts[1..]), sep);
      assert [parts[0]] + parts[1..] == parts;
    }
  }

  lemma {:induction false} SplitWithoutSeparator(s: string, sep: char)
    requires sep !in s
    ensures Split(s, sep) == [s]
  {
    if s != [] {
      SplitWithoutSeparator(s[1..], sep);
      assert [s[0]] + s[1..] == s;
    }
  }

  /** The first separator ends the first piece. */
  lemma {:induction false} SplitAtSeparator(a: string, b: string, sep: char)
    requires sep !in a
    ensures Split(a + [sep] + b, sep) == [a] + Split(b, sep)
  {
    var s := a + [sep] + b;
    if a == [] {
      assert s == [sep] + b;
      assert s[1..] == b;
    } else {
      SplitAtSeparator(a[1..], b, sep);
      assert s[1..] == a[1..] + [sep] + b;
      assert s[0] == a[0];
      assert [a[0]] + a[1..] == a;
    }
  }

  /** The settings `_get_paypal_client` returns. */
  datatype PayPalConfig = PayPalConfig(clientId: string, clientSecret: string, environment: string)

  const CredentialsMissing := "PayPal credentials not configured. Set PAYPAL_CLIENT_ID and PAYPAL_SECRET"

  /** `_get_paypal_client`: both credentials must be non-empty; the environment defaults to "sandbox". */
  function LoadPayPalConfig(clientId: Option<string>, secret: Option<string>, environment: Option<string>): (r: Result<PayPalConfig>)
    ensures r.Ok? <==> Present(clientId) && Present(secret)
    ensures r.Err? ==> r.error == ValueError(CredentialsMissing)
    ensures r.Ok? ==> r.value == PayPalConfig(clientId.value, secret.value,
                                              if environment.Some? then environment.value else "sandbox")
  {
    if !Present(clientId) || !Present(secret) then Err(ValueError(CredentialsMissing))
    else Ok(PayPalConfig(clientId.value, secret.value, if environment.None? then "sandbox" else environment.value))
  }

  const LiveApi := "https://api.paypal.com"
  const SandboxApi := "https://api.sandbox.paypal.com"

  /** The PayPal API host: the live one only for the exact environment name "production". */
  function BaseUrl(environment: string): (url: string)
    ensures url == LiveApi <==> environment == "production"
    ensures url == LiveApi || url == SandboxApi
  {
    if environment == "production" then LiveApi else SandboxApi
  }

  /** With PAYPAL_ENVIRONMENT unset the sandbox host is used. */
  lemma UnsetEnvironmentUsesSandbox(clientId: string, secret: string)
    requires clientId != "" && secret != ""
    ensures LoadPayPalConfig(Some(clientId), Some(secret), None).Ok?
    ensures BaseUrl(LoadPayPalConfig(Some(clientId), Some(secret), None).value.environment) == SandboxApi
  {
  }
}
