/**
 * The parser of internal compiler arguments `-XX:+Feature` / `-XX:-Feature`,
 * which turns one argument into a language-feature setting or reports one error.
 */
module InternalArguments {
  import opened Wrappers

  /** INTERNAL_ARGUMENT_PREFIX, defined beside the argument classes. */
  const INTERNAL_ARGUMENT_PREFIX: string := "-XX:"

  /** A language feature; which names denote one is decided by `LanguageFeature.fromString`, a parameter here. */
  datatype LanguageFeature = LanguageFeature(id: nat)
  type FeatureLookup = string -> Option<LanguageFeature>

  datatype FeatureState = Enabled | EnabledWithWarning | EnabledWithError | Disabled

  datatype ManualLanguageFeatureSetting = ManualLanguageFeatureSetting(languageFeature: LanguageFeature, state: FeatureState)

  datatype CompilerMessageSeverity = Exception | Error | StrongWarning | Warning | Info | Logging | Output

  datatype Message = Message(severity: CompilerMessageSeverity, text: string)

  /** `removePrefix`: drops `prefix` only when `s` starts with it. */
  function RemovePrefix(s: string, prefix: string): (r: string)
    ensures prefix <= s ==> prefix + r == s
    ensures !(prefix <= s) ==> r == s
  {
    if prefix <= s then s[|prefix|..] else s
  }

  /** The decision of `parseInternalArgument`: a setting, or the text of the one error it reports. */
  datatype ParseOutcome = Parsed(setting: ManualLanguageFeatureSetting) | Rejected(message: string)

  function MissingModificatorMessage(arg: string): string {
    "Incorrect internal argument syntax, missing modificator: " + arg
  }

  function EmptyNameMessage(arg: string): string {
    "Empty language feature name for internal argument '" + arg + "'"
  }

  function UnknownFeatureMessage(name: string, arg: string): string {
    "Unknown language feature '" + name + "' in passed internal argument '" + arg + "'"
  }

  /**
   * An accepted argument names a feature `fromString` knows and either enables
   * or disables it; a rejected one carries one of the three error texts.
   */
  function Parse(arg: string, fromString: FeatureLookup): (r: ParseOutcome)
    ensures r.Parsed? ==> r.setting.state == Enabled || r.setting.state == Disabled
    ensures r.Parsed? ==> exists name :: name != [] && fromString(name) == Some(r.setting.languageFeature)
    ensures r.Rejected? ==>
      || r.message == MissingModificatorMessage(arg)
      || r.message == EmptyNameMessage(arg)
      || exists name :: name != [] && fromString(name).None? && r.message == UnknownFeatureMessage(name, arg)
  {
    var argumentWithoutPrefix := RemovePrefix(arg, INTERNAL_ARGUMENT_PREFIX);
    if argumentWithoutPrefix == [] || (argumentWithoutPrefix[0] != '+' && argumentWithoutPrefix[0] != '-') then
      Rejected(MissingModificatorMessage(arg))
    else
      var languageFeatureState := if argumentWithoutPrefix[0] == '+' then Enabled else Disabled;
      var languageFeatureName := argumentWithoutPrefix[1..];
      if languageFeatureName == [] then Rejected(EmptyNameMessage(arg))
      else
        match fromString(languageFeatureName)
        case None => Rejected(UnknownFeatureMessage(languageFeatureName, arg))
        case Some(languageFeature) => Parsed(ManualLanguageFeatureSetting(languageFeature, languageFeatureState))
  }

  /**
   * The checks run in order: sign, then empty name, then unknown name; the
   * first that fails decides the one error, and only when all pass is there a setting.
   */
  lemma ParseCases(arg: string, fromString: FeatureLookup)
    ensures var rest := RemovePrefix(arg, INTERNAL_ARGUMENT_PREFIX);
      var p := Parse(arg, fromString);
      && (rest == [] || rest[0] !in {'+', '-'} ==> p == Rejected(MissingModificatorMessage(arg)))
      && (|rest| == 1 && rest[0] in {'+', '-'} ==> p == Rejected(EmptyNameMessage(arg)))
      && ((|rest| > 1 && rest[0] in {'+', '-'} && fromString(rest[1..]).None?)
            ==> p == Rejected(UnknownFeatureMessage(rest[1..], arg)))
      && (p.Parsed? <==> |rest| > 1 && rest[0] in {'+', '-'} && fromString(rest[1..]).Some?)
      && (p.Parsed? ==> p.setting.languageFeature == fromString(rest[1..]).value
                        && (p.setting.state == Enabled <==> rest[0] == '+')
                        && (p.setting.state == Disabled <==> rest[0] == '-'))
  {
  }

  /** `prefix + "+" + n` enables and `prefix + "-" + n` disables the feature `fromString(n)`. */
  lemma {:induction false} ParseRoundTrip(feature: LanguageFeature, name: string, fromString: FeatureLookup)
    requires name != [] && fromString(name) == Some(feature)
    ensures Parse(INTERNAL_ARGUMENT_PREFIX + "+" + name, fromString) == Parsed(ManualLanguageFeatureSetting(feature, Enabled))
    ensures Parse(INTERNAL_ARGUMENT_PREFIX + "-" + name, fromString) == Parsed(ManualLanguageFeatureSetting(feature, Disabled))
  {
    var plus := INTERNAL_ARGUMENT_PREFIX + "+" + name;
    var minus := INTERNAL_ARGUMENT_PREFIX + "-" + name;
    assert INTERNAL_ARGUMENT_PREFIX <= plus && INTERNAL_ARGUMENT_PREFIX <= minus;
    assert RemovePrefix(plus, INTERNAL_ARGUMENT_PREFIX) == "+" + name;
    assert RemovePrefix(minus, INTERNAL_ARGUMENT_PREFIX) == "-" + name;
    assert ("+" + name)[1..] == name && ("-" + name)[1..] == name;
  }

  /**
   * Conversely, every accepted argument is a sign and a known, non-empty
   * feature name, after the prefix when there is one.
   */
  lemma ParsedArgumentShape(arg: string, fromString: FeatureLookup)
    requires Parse(arg, fromString).Parsed?
    ensures var s := Parse(arg, fromString).setting;
      exists name: string ::
        && name != []
        && fromString(name) == Some(s.languageFeature)
        && var sign := if s.state == Enabled then '+' else '-';
        && (s.state == Enabled || s.state == Disabled)
        && (arg == INTERNAL_ARGUMENT_PREFIX + [sign] + name
            || (!(INTERNAL_ARGUMENT_PREFIX <= arg) && arg == [sign] + name))
  {
    var rest := RemovePrefix(arg, INTERNAL_ARGUMENT_PREFIX);
    var name := rest[1..];
    assert rest == [rest[0]] + name;
    if INTERNAL_ARGUMENT_PREFIX <= arg {
      assert arg == INTERNAL_ARGUMENT_PREFIX + [rest[0]] + name;
    }
  }

  /** MessageCollector, reduced to the log of what was reported. */
  class MessageCollector {
    var reported: seq<Message>

    constructor ()
      ensures reported == []
    {
      reported := [];
    }

    method Report(severity: CompilerMessageSeverity, text: string)
      modifies this
      ensures reported == old(reported) + [Message(severity, text)]
    {
      reported := reported + [Message(severity, text)];
    }
  }

  class InternalArgumentsParser {
    const collector: MessageCollector
    const fromString: FeatureLookup

    constructor (collector: MessageCollector, fromString: FeatureLookup)
      ensures this.collector == collector && this.fromString == fromString
    {
      this.collector := collector;
      this.fromString := fromString;
    }

    /**
     * `parseInternalArgument`: the setting when the argument is accepted;
     * otherwise null, with exactly one ERROR report appended to the collector.
     */
    method ParseInternalArgument(arg: string) returns (r: Option<ManualLanguageFeatureSetting>)
      modifies collector
      ensures Parse(arg, fromString).Parsed? ==>
        r == Some(Parse(arg, fromString).setting) && collector.reported == old(collector.reported)
      ensures Parse(arg, fromString).Rejected? ==>
        r.None? && collector.reported == old(collector.reported) + [Message(Error, Parse(arg, fromString).message)]
      ensures r.None? <==> |collector.reported| == |old(collector.reported)| + 1
    {
      var argumentWithoutPrefix := RemovePrefix(arg, INTERNAL_ARGUMENT_PREFIX);
      var languageFeatureState: FeatureState;
      if argumentWithoutPrefix != [] && argumentWithoutPrefix[0] == '+' {
        languageFeatureState := Enabled;
      } else if argumentWithoutPrefix != [] && argumentWithoutPrefix[0] == '-' {
        languageFeatureState := Disabled;
      } else {
        collector.Report(Error, MissingModificatorMessage(arg));
        return None;
      }
      var languageFeatureName := argumentWithoutPrefix[1..];
      if languageFeatureName == [] {
        collector.Report(Error, EmptyNameMessage(arg));
        return None;
      }
      var languageFeature := fromString(languageFeatureName);
      if languageFeature.None? {
        collector.Report(Error, UnknownFeatureMessage(languageFeatureName, arg));
        return None;
      }
      r := Some(ManualLanguageFeatureSetting(languageFeature.value, languageFeatureState));
    }
  }

  /** The scenario of an unknown feature `Foo`: one ERROR naming it, and no setting. */
  method UnknownFeatureScenario(fromString: FeatureLookup) returns (r: Option<ManualLanguageFeatureSetting>, log: seq<Message>)
    requires fromString("Foo").None?
    ensures r.None?
    ensures log == [Message(Error, UnknownFeatureMessage("Foo", "-XX:+Foo"))]
  {
    var collector := new MessageCollector();
    var parser := new InternalArgumentsParser(collector, fromString);
    assert RemovePrefix("-XX:+Foo", INTERNAL_ARGUMENT_PREFIX) == "+Foo";
    assert "+Foo"[1..] == "Foo";
    assert Parse("-XX:+Foo", fromString) == Rejected(UnknownFeatureMessage("Foo", "-XX:+Foo"));
    r := parser.ParseInternalArgument("-XX:+Foo");
    log := collector.reported;
  }
}
