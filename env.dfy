/**
 * Environment configuration: `getEnv` turns a raw environment string into a
 * boolean, a number or the string itself, falling back to a default when the
 * variable is unset or empty; `ENV` is the fixed record built from it.
 */
module Env {
  import opened JsValues

  /** What `getEnv` may be handed: a build-time variable is a string or
      undefined; null is handled the same way as undefined. */
  datatype EnvInput = Undefined | Null | Str(s: string)

  function LowerChar(c: char): (d: char)
    ensures 'A' <= c <= 'Z' ==> d as int == c as int + 32
    ensures !('A' <= c <= 'Z') ==> d == c
  {
    if 'A' <= c <= 'Z' then (c as int + 32) as char else c
  }

  /** `s.toLowerCase()` on ASCII letters; other characters are kept. */
  function Lower(s: string): (r: string)
    ensures |r| == |s|
    ensures forall i :: 0 <= i < |s| ==> r[i] == LowerChar(s[i])
  {
    seq(|s|, i requires 0 <= i < |s| => LowerChar(s[i]))
  }

  lemma LowerIdempotent(s: string)
    ensures Lower(Lower(s)) == Lower(s)
  {
  }

  /** A string that is neither "true" nor "false" in any letter case and is
      not a number is returned unchanged. */
  function GetEnv(envValue: EnvInput, defaultValue: JsValue): (r: JsValue)
    ensures envValue.Undefined? || envValue.Null? || envValue == Str("") ==> r == defaultValue
    ensures envValue.Str? && envValue.s != "" ==> !IsNullish(r)
    ensures r.JBool? && envValue.Str? && envValue.s != "" ==> (r.b <==> Lower(envValue.s) == "true")
    ensures r.JStr? && envValue.Str? && envValue.s != "" ==> r.s == envValue.s && StringToNumber(envValue.s).None?
    ensures envValue.Str? && envValue.s != "" && Lower(envValue.s) != "true" && Lower(envValue.s) != "false"
            ==> r == (if StringToNumber(envValue.s).Some? then JNum(StringToNumber(envValue.s).value) else JStr(envValue.s))
  {
    match envValue
    case Undefined => defaultValue
    case Null => defaultValue
    case Str(s) =>
      if s == "" then defaultValue
      else if Lower(s) == "true" then JBool(true)
      else if Lower(s) == "false" then JBool(false)
      else match StringToNumber(s)
        case Some(n) => JNum(n)
        case None => JStr(s)
  }

  /** Letter case does not matter for the boolean spellings, and a string
      of digits always comes back as its number. */
  lemma GetEnvConversions(s: string, defaultValue: JsValue)
    ensures Lower(s) == "true" ==> GetEnv(Str(s), defaultValue) == JBool(true)
    ensures Lower(s) == "false" ==> GetEnv(Str(s), defaultValue) == JBool(false)
    ensures s != "" && AllDigits(s) ==> GetEnv(Str(s), defaultValue) == JNum(DigitsValue(s) as real)
    ensures GetEnv(Str(s), defaultValue).JBool? ==> GetEnv(Str(Lower(s)), defaultValue) == GetEnv(Str(s), defaultValue)
  {
    if s != "" && AllDigits(s) {
      assert Lower(s) != "true" by { assert s[0] != "true"[0]; }
      assert Lower(s) != "false" by { assert s[0] != "false"[0]; }
    }
    if GetEnv(Str(s), defaultValue).JBool? {
      LowerIdempotent(s);
    }
  }

  /** The `ENV` record. */
  datatype Config = Config(
    beepApiUrl: JsValue,
    appName: JsValue,
    version: JsValue,
    debugMode: JsValue,
    environment: JsValue,
    isDevelopment: bool,
    isProduction: bool,
    isStaging: bool)

  function Var(processEnv: map<string, string>, name: string): EnvInput {
    if name in processEnv then Str(processEnv[name]) else Undefined
  }

  /** `ENV`, from the build-time variables. */
  function MakeConfig(processEnv: map<string, string>): (c: Config)
    ensures c.isDevelopment <==> c.environment == JStr("development")
    ensures c.isProduction <==> c.environment == JStr("production")
    ensures c.isStaging <==> c.environment == JStr("staging")
    ensures "REACT_APP_APP_NAME" !in processEnv ==> c.appName == JStr("Beep Mini App")
    ensures "REACT_APP_DEBUG_MODE" !in processEnv ==> c.debugMode == JBool(false)
    ensures "REACT_APP_BEEP_API_URL" !in processEnv ==> c.beepApiUrl == JStr("http://localhost:8000")
    ensures "REACT_APP_VERSION" !in processEnv ==> c.version == JStr("1.0.0")
  {
    var environment := GetEnv(Var(processEnv, "REACT_APP_ENVIRONMENT"), JStr("development"));
    Config(
      GetEnv(Var(processEnv, "REACT_APP_BEEP_API_URL"), JStr("http://localhost:8000")),
      GetEnv(Var(processEnv, "REACT_APP_APP_NAME"), JStr("Beep Mini App")),
      GetEnv(Var(processEnv, "REACT_APP_VERSION"), JStr("1.0.0")),
      GetEnv(Var(processEnv, "REACT_APP_DEBUG_MODE"), JBool(false)),
      environment,
      environment == JStr("development"),
      environment == JStr("production"),
      environment == JStr("staging"))
  }

  /** At most one of the three environment flags is set, and development is
      the one set when the variable is missing or empty. */
  lemma EnvironmentFlags(processEnv: map<string, string>)
    ensures var c := MakeConfig(processEnv);
      && !(c.isDevelopment && c.isProduction)
      && !(c.isDevelopment && c.isStaging)
      && !(c.isProduction && c.isStaging)
    ensures "REACT_APP_ENVIRONMENT" !in processEnv ==> MakeConfig(processEnv).isDevelopment
    ensures "REACT_APP_ENVIRONMENT" in processEnv && processEnv["REACT_APP_ENVIRONMENT"] == "" ==> MakeConfig(processEnv).isDevelopment
  {
  }

  /** A value that starts with a letter and is not a boolean spelling is
      kept as the string it is. */
  lemma LetterStartKeptAsString(s: string, defaultValue: JsValue)
    requires s != "" && ('A' <= s[0] <= 'Z' || 'a' <= s[0] <= 'z')
    requires Lower(s) != "true" && Lower(s) != "false"
    ensures GetEnv(Str(s), defaultValue) == JStr(s)
  {
    var i := DotIndex(s);
    assert i > 0 && s[..i][0] == s[0];
    assert !AllDigits(s[..i]);
    assert UnsignedDecimal(s).None?;
  }

  /** The comparison is case-sensitive: "Production" is kept as a string and
      sets no flag. */
  lemma CapitalisedEnvironmentSetsNoFlag(processEnv: map<string, string>)
    requires "REACT_APP_ENVIRONMENT" in processEnv && processEnv["REACT_APP_ENVIRONMENT"] == "Production"
    ensures MakeConfig(processEnv).environment == JStr("Production")
    ensures !MakeConfig(processEnv).isDevelopment && !MakeConfig(processEnv).isProduction && !MakeConfig(processEnv).isStaging
  {
    var s := "Production";
    assert |Lower(s)| == 10;
    LetterStartKeptAsString(s, JStr("development"));
  }

  /** `ENV` as a JavaScript object, so that reading a key it does not define
      gives undefined. */
  function ConfigObject(c: Config): (o: JsValue)
    ensures o.JObj?
    ensures Get(o, "APP_NAME") == Some(c.appName) && Get(o, "ENVIRONMENT") == Some(c.environment)
    ensures Get(o, "IS_DEVELOPMENT") == Some(JBool(c.isDevelopment))
    ensures Get(o, "IS_PRODUCTION") == Some(JBool(c.isProduction))
    ensures Get(o, "IS_STAGING") == Some(JBool(c.isStaging))
  {
    JObj(map[
      "BEEP_API_URL" := c.beepApiUrl, "APP_NAME" := c.appName, "VERSION" := c.version,
      "DEBUG_MODE" := c.debugMode, "ENVIRONMENT" := c.environment,
      "IS_DEVELOPMENT" := JBool(c.isDevelopment), "IS_PRODUCTION" := JBool(c.isProduction),
      "IS_STAGING" := JBool(c.isStaging)])
  }

  /** `ENV.BEEP_MERCHANT_CODE` is undefined whatever the build variables
      are: the record has no such entry. */
  lemma MerchantCodeIsUndefined(processEnv: map<string, string>)
    ensures Get(ConfigObject(MakeConfig(processEnv)), "BEEP_MERCHANT_CODE") == Some(JUndefined)
  {
  }
}
