/** The dashboard's editable state: the DDoS-protection settings record and
    the storage API token field. Every edit builds a new record from the old
    one with a single field replaced; numeric fields take whatever parseInt
    makes of the input, NaN included. Saving only raises a notice. */
module AdminDashboard {

  import opened JsNumbers
  import opened Toasts

  datatype CloakSettings = CloakSettings(enabled: bool, rateLimit: JsNumber, blockDuration: JsNumber)

  /** The settings the dashboard starts with. */
  const InitialSettings: CloakSettings := CloakSettings(true, Int(1000), Int(300))

  /** The enable switch: `{...cloakSettings, enabled: checked}`. */
  function WithEnabled(s: CloakSettings, checked: bool): (r: CloakSettings)
    ensures r.enabled == checked
    ensures r.rateLimit == s.rateLimit && r.blockDuration == s.blockDuration
  {
    s.(enabled := checked)
  }

  /** The rate-limit field: `{...cloakSettings, rateLimit: parseInt(input)}`. */
  function WithRateLimit(s: CloakSettings, input: string): (r: CloakSettings)
    ensures r.rateLimit == ParseInt(input)
    ensures r.rateLimit.NaN? <==> !StartsWithDigit(Unsigned(input))
    ensures r.enabled == s.enabled && r.blockDuration == s.blockDuration
  {
    s.(rateLimit := ParseInt(input))
  }

  /** The block-duration field: `{...cloakSettings, blockDuration: parseInt(input)}`. */
  function WithBlockDuration(s: CloakSettings, input: string): (r: CloakSettings)
    ensures r.blockDuration == ParseInt(input)
    ensures r.blockDuration.NaN? <==> !StartsWithDigit(Unsigned(input))
    ensures r.enabled == s.enabled && r.rateLimit == s.rateLimit
  {
    s.(blockDuration := ParseInt(input))
  }

  /** Typing "500" into the rate-limit field of the initial settings. */
  lemma RateLimitExample()
    ensures WithRateLimit(InitialSettings, "500") == CloakSettings(true, Int(500), Int(300))
  {
    assert NatToDigits(5) == "5";
    assert NatToDigits(50) == "50";
    assert NatToDigits(500) == "500";
    ParseIntOfNumberToString(Int(500));
  }

  /** A numeric field keeps nothing of its previous value: the last edit alone
      decides it, so input without digits replaces a valid number by NaN. */
  lemma NumericEditsOverwrite(s: CloakSettings, a: string, b: string)
    ensures WithRateLimit(WithRateLimit(s, a), b) == WithRateLimit(s, b)
    ensures WithBlockDuration(WithBlockDuration(s, a), b) == WithBlockDuration(s, b)
    ensures !StartsWithDigit(Unsigned(b)) ==>
              WithRateLimit(s, b).rateLimit == NaN && WithBlockDuration(s, b).blockDuration == NaN
  {
  }

  /** Edits of different fields do not interfere: their order does not matter. */
  lemma EditsOfDifferentFieldsCommute(s: CloakSettings, checked: bool, a: string, b: string)
    ensures WithRateLimit(WithEnabled(s, checked), a) == WithEnabled(WithRateLimit(s, a), checked)
    ensures WithBlockDuration(WithEnabled(s, checked), b) == WithEnabled(WithBlockDuration(s, b), checked)
    ensures WithBlockDuration(WithRateLimit(s, a), b) == WithRateLimit(WithBlockDuration(s, b), a)
  {
  }

  /** Re-entering the number a field shows leaves the settings as they were:
      a numeric field displays String(value) and parses it back on edit. A
      NaN value is shown as an empty field rather than as "NaN"; both parse
      to NaN, so the conclusion holds for it as well. Values of magnitude
      10^21 or more are shown in exponent form and are excluded. */
  lemma EditingShownValueIsNoChange(s: CloakSettings)
    requires PrintsPlain(s.rateLimit) && PrintsPlain(s.blockDuration)
    ensures WithRateLimit(s, NumberToString(s.rateLimit)) == s
    ensures WithBlockDuration(s, NumberToString(s.blockDuration)) == s
  {
    ParseIntOfNumberToString(s.rateLimit);
    ParseIntOfNumberToString(s.blockDuration);
  }

  class Dashboard {
    var cloakSettings: CloakSettings
    var s3Token: string
    /** Toasts raised so far. */
    var notices: seq<Notice>

    constructor ()
      ensures cloakSettings == InitialSettings && s3Token == "" && notices == []
    {
      cloakSettings := InitialSettings;
      s3Token := "";
      notices := [];
    }

    method ToggleEnabled(checked: bool)
      modifies this`cloakSettings
      ensures cloakSettings == WithEnabled(old(cloakSettings), checked)
      ensures s3Token == old(s3Token) && notices == old(notices)
    {
      cloakSettings := WithEnabled(cloakSettings, checked);
    }

    method EditRateLimit(input: string)
      modifies this`cloakSettings
      ensures cloakSettings == WithRateLimit(old(cloakSettings), input)
      ensures s3Token == old(s3Token) && notices == old(notices)
    {
      cloakSettings := WithRateLimit(cloakSettings, input);
    }

    method EditBlockDuration(input: string)
      modifies this`cloakSettings
      ensures cloakSettings == WithBlockDuration(old(cloakSettings), input)
      ensures s3Token == old(s3Token) && notices == old(notices)
    {
      cloakSettings := WithBlockDuration(cloakSettings, input);
    }

    /** The API token field replaces the token and nothing else. */
    method EditS3Token(value: string)
      modifies this`s3Token
      ensures s3Token == value
      ensures cloakSettings == old(cloakSettings)
    {
      s3Token := value;
    }

    /** Both save buttons: a confirmation notice, no change to the settings
        or the token. */
    method SaveSettings()
      modifies this`notices
      ensures notices == old(notices) + [SettingsSaved]
      ensures cloakSettings == old(cloakSettings) && s3Token == old(s3Token)
    {
      notices := notices + [SettingsSaved];
    }
  }
}
