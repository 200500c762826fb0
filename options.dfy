/**
 * Encoder options (option.go) and the two sentinel errors of errors.go.
 *
 * An option validates its argument and, when the argument is acceptable,
 * sets exactly one setting of the encoder. The settings are collected in
 * `Config`; the Encoder class applies the same options to its fields.
 */
module Options {
  import opened Wrappers

  const DefaultTagName := "human"
  const DefaultListSymbol := "*"
  const DefaultIndent: nat := 2

  /** The three settings an Encoder carries besides its stream. */
  datatype Config = Config(tagName: string, indent: nat, listSymbols: seq<string>)

  /** The settings of an Encoder before any option ran (Go's zero values). */
  const ZeroConfig := Config("", 0, [])

  /** The invariant a successfully built encoder keeps. */
  predicate ValidConfig(c: Config)
  {
    c.tagName != "" && |c.listSymbols| > 0
  }

  datatype ConfigError = ErrInvalidTagName | ErrListSymbolsEmpty {
    function Message(): string
    {
      match this
      case ErrInvalidTagName => "invalid tag name"
      case ErrListSymbolsEmpty => "no list symbols provided"
    }
  }

  /** One option value, as returned by OptionTagName, OptionListSymbols and OptionIndent. */
  datatype EncoderOption =
    | OptionTagName(tagName: string)
    | OptionListSymbols(symbols: seq<string>)
    | OptionIndent(indent: nat)

  const DefaultOptions := [
    OptionTagName(DefaultTagName),
    OptionListSymbols([DefaultListSymbol]),
    OptionIndent(DefaultIndent)
  ]

  /** The option will refuse its argument. */
  predicate Rejects(opt: EncoderOption)
  {
    (opt.OptionTagName? && opt.tagName == "") || (opt.OptionListSymbols? && opt.symbols == [])
  }

  /** Running one option on the settings: the new settings and the error it returned. */
  function ApplyOption(c: Config, opt: EncoderOption): (r: (Config, Option<ConfigError>))
    ensures r.1.Some? <==> Rejects(opt)
    ensures r.1.Some? ==> r.0 == c
    ensures r.1 == Some(ErrInvalidTagName) <==> opt == OptionTagName("")
    ensures r.1 == Some(ErrListSymbolsEmpty) <==> opt == OptionListSymbols([])
    ensures !opt.OptionTagName? ==> r.0.tagName == c.tagName
    ensures !opt.OptionListSymbols? ==> r.0.listSymbols == c.listSymbols
    ensures !opt.OptionIndent? ==> r.0.indent == c.indent
    ensures r.1.None? && opt.OptionTagName? ==> r.0.tagName == opt.tagName
    ensures r.1.None? && opt.OptionListSymbols? ==> r.0.listSymbols == opt.symbols
    ensures opt.OptionIndent? ==> r.0.indent == opt.indent
  {
    match opt
    case OptionTagName(name) =>
      if name == "" then (c, Some(ErrInvalidTagName)) else (c.(tagName := name), None)
    case OptionListSymbols(symbols) =>
      if |symbols| == 0 then (c, Some(ErrListSymbolsEmpty)) else (c.(listSymbols := symbols), None)
    case OptionIndent(n) =>
      (c.(indent := n), None)
  }

  /** The option loop of NewEncoder: the settings after all options, and the errors in order. */
  function ApplyOptions(c: Config, opts: seq<EncoderOption>): (Config, seq<ConfigError>)
  {
    if opts == [] then (c, [])
    else
      var prev := ApplyOptions(c, opts[..|opts| - 1]);
      var step := ApplyOption(prev.0, opts[|opts| - 1]);
      (step.0, prev.1 + (if step.1.Some? then [step.1.value] else []))
  }

  /** The errors of the options that refuse their argument, in option order. */
  function RejectedErrors(opts: seq<EncoderOption>): seq<ConfigError>
  {
    if opts == [] then []
    else
      (if opts[0] == OptionTagName("") then [ErrInvalidTagName]
       else if opts[0] == OptionListSymbols([]) then [ErrListSymbolsEmpty]
       else [])
      + RejectedErrors(opts[1..])
  }

  lemma {:induction false} RejectedErrorsAppend(opts: seq<EncoderOption>, opt: EncoderOption)
    ensures RejectedErrors(opts + [opt]) == RejectedErrors(opts) + RejectedErrors([opt])
  {
    if opts != [] {
      assert (opts + [opt])[1..] == opts[1..] + [opt];
      RejectedErrorsAppend(opts[1..], opt);
    }
  }

  /** NewEncoder collects exactly one error per refused option, in option order. */
  lemma {:induction false} ApplyOptionsErrors(c: Config, opts: seq<EncoderOption>)
    ensures ApplyOptions(c, opts).1 == RejectedErrors(opts)
    ensures ApplyOptions(c, opts).1 == [] <==> forall i :: 0 <= i < |opts| ==> !Rejects(opts[i])
  {
    if opts != [] {
      var init := opts[..|opts| - 1];
      var last := opts[|opts| - 1];
      ApplyOptionsErrors(c, init);
      RejectedErrorsAppend(init, last);
      assert init + [last] == opts;
      assert forall i :: 0 <= i < |init| ==> init[i] == opts[i];
    }
  }

  /** Options never break the invariant: a refused option changes nothing, an
      accepted one only stores a non-empty tag name or a non-empty symbol list. */
  lemma {:induction false} ApplyOptionsKeepsValid(c: Config, opts: seq<EncoderOption>)
    requires ValidConfig(c)
    ensures ValidConfig(ApplyOptions(c, opts).0)
  {
    if opts != [] {
      ApplyOptionsKeepsValid(c, opts[..|opts| - 1]);
    }
  }

  /** The refused options of `a + b` are those of `a`, then those of `b`. */
  lemma {:induction false} RejectedErrorsConcat(a: seq<EncoderOption>, b: seq<EncoderOption>)
    ensures RejectedErrors(a + b) == RejectedErrors(a) + RejectedErrors(b)
  {
    if a != [] {
      assert (a + b)[1..] == a[1..] + b;
      RejectedErrorsConcat(a[1..], b);
    } else {
      assert a + b == b;
    }
  }

  /** Running `a + b` is running `a`, then `b` on the settings `a` left: the
      same final settings, and the errors of `a` followed by those of `b`. */
  lemma {:induction false} ApplyOptionsConcat(c: Config, a: seq<EncoderOption>, b: seq<EncoderOption>)
    ensures ApplyOptions(c, a + b).0 == ApplyOptions(ApplyOptions(c, a).0, b).0
    ensures ApplyOptions(c, a + b).1 == ApplyOptions(c, a).1 + ApplyOptions(ApplyOptions(c, a).0, b).1
  {
    ApplyOptionsSettingsConcat(c, a, b);
    ApplyOptionsErrors(c, a + b);
    ApplyOptionsErrors(c, a);
    ApplyOptionsErrors(ApplyOptions(c, a).0, b);
    RejectedErrorsConcat(a, b);
  }

  /** The settings half of ApplyOptionsConcat, by induction on `b`. */
  lemma {:induction false} ApplyOptionsSettingsConcat(c: Config, a: seq<EncoderOption>, b: seq<EncoderOption>)
    ensures ApplyOptions(c, a + b).0 == ApplyOptions(ApplyOptions(c, a).0, b).0
  {
    if b != [] {
      assert (a + b)[..|a + b| - 1] == a + b[..|b| - 1];
      assert (a + b)[|a + b| - 1] == b[|b| - 1];
      ApplyOptionsSettingsConcat(c, a, b[..|b| - 1]);
    } else {
      assert a + b == a;
    }
  }

  /** The defaults alone give tag "human", the symbols ["*"] and indent 2, without error. */
  lemma DefaultsOnly()
    ensures ApplyOptions(ZeroConfig, DefaultOptions) == (Config(DefaultTagName, DefaultIndent, [DefaultListSymbol]), [])
  {
    var o1 := [OptionTagName(DefaultTagName)];
    var o2 := o1 + [OptionListSymbols([DefaultListSymbol])];
    assert o1[..|o1| - 1] == [] && o2[..|o2| - 1] == o1 && DefaultOptions[..|DefaultOptions| - 1] == o2;
    assert ApplyOptions(ZeroConfig, o1).0 == Config(DefaultTagName, 0, []);
    assert ApplyOptions(ZeroConfig, o1).1 == [];
    assert ApplyOptions(ZeroConfig, o2) == (Config(DefaultTagName, 0, [DefaultListSymbol]), []);
  }

  /** Whatever the user options, defaults followed by them give valid settings. */
  lemma ConfiguredEncoderIsValid(opts: seq<EncoderOption>)
    ensures ValidConfig(ApplyOptions(ZeroConfig, DefaultOptions + opts).0)
  {
    DefaultsOnly();
    ApplyOptionsConcat(ZeroConfig, DefaultOptions, opts);
    ApplyOptionsKeepsValid(ApplyOptions(ZeroConfig, DefaultOptions).0, opts);
  }
}
