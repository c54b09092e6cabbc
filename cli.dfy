/**
 * The console command parser of src/cli.rs: a list of whitespace-separated tokens
 * becomes a `Command`. Numbers are read as Rust's `str::parse` reads unsigned
 * integers: an optional '+', then decimal digits, within the target type's range.
 */
module Cli {
  import opened Wrappers
  import opened Ints
  import opened Text

  datatype ChannelAction = Intensity(level: u8) | Rgb(red: u8, green: u8, blue: u8)

  datatype Command =
    | Channel(channel: nat, action: ChannelAction)
    | Address(address: nat, value: u8)
    | Blackout
    | Help
    | Unknown(message: string)

  const INTENSITY_ERROR: string := "Intensity must be a number or 'f'/'full'"
  const CHANNEL_USAGE: string := "Use: c <channel> @ <intensity> or c <channel> rgb <r> <g> <b>"

  /** `parse_arg`: token `index` read as a number no larger than `max` (the target type's maximum). */
  function ParseArg(args: seq<string>, index: nat, argName: string, max: nat): (r: Result<nat, string>)
    ensures index >= |args| ==> r == Err("Missing " + argName + " argument")
    ensures r.Ok? ==> index < |args| && ParseUnsigned(args[index], max) == Some(r.value) && r.value <= max
    ensures index < |args| && ParseUnsigned(args[index], max).None? ==> r == Err(argName + " must be a valid number")
  {
    if index >= |args| then Err("Missing " + argName + " argument")
    else match ParseUnsigned(args[index], max)
      case None => Err(argName + " must be a valid number")
      case Some(n) => Ok(n)
  }

  /** "full" contains 'f', so the second test of `parse_intensity` never decides anything. */
  lemma FullContainsF(s: string)
    ensures Contains(s, "full") ==> Contains(s, "f")
  {
    ContainsIffOccurs(s, "full");
    if Contains(s, "full") {
      var i :| OccursAt(s, "full", i);
      assert s[i..i + 1] == s[i..i + 4][..1];
      assert OccursAt(s, "f", i);
      ContainsIffOccurs(s, "f");
    }
  }

  /** A string of digits contains no 'f'. */
  lemma DigitsHaveNoF(s: string)
    requires AllDigits(s)
    ensures !Contains(s, "f")
  {
    ContainsChar(s, 'f');
  }

  /** `parse_intensity`: any 'f' means full (255); otherwise a decimal `u8`. */
  function ParseIntensity(value: string): (r: Result<u8, string>)
    ensures Contains(value, "f") ==> r == Ok(255)
    ensures !Contains(value, "f") ==> (r.Ok? <==> ParseUnsigned(value, 255).Some?)
    ensures !Contains(value, "f") && r.Ok? ==> Some(r.value as nat) == ParseUnsigned(value, 255)
    ensures r.Err? ==> r.error == INTENSITY_ERROR
  {
    FullContainsF(value);
    if Contains(value, "f") || Contains(value, "full") then Ok(255)
    else match ParseUnsigned(value, 255)
      case None => Err(INTENSITY_ERROR)
      case Some(n) => Ok(n)
  }

  /** Printing a level in decimal and reading it back gives the level. */
  lemma IntensityRoundTrip(level: u8)
    ensures ParseIntensity(Decimal(level)) == Ok(level)
  {
    DigitsHaveNoF(Decimal(level));
    ParseDecimal(level, 255);
  }

  /** The value token shared by the "@" and address forms: a missing token, else `parse_intensity`. */
  function IntensityToken(args: seq<string>, index: nat, missing: string): (r: Result<u8, string>)
    ensures index >= |args| ==> r == Err(missing)
    ensures index < |args| ==> r == ParseIntensity(args[index])
  {
    if index < |args| then ParseIntensity(args[index]) else Err(missing)
  }

  /** The `c` arm: channel from token 1, then "@ <level>" or "rgb <r> <g> <b>" chosen by token 2. */
  function ParseChannelCommand(args: seq<string>): (r: Command)
    requires |args| > 0
    ensures r.Channel? || r.Unknown?
    ensures r.Channel? ==> ParseArg(args, 1, "channel", USIZE_MAX) == Ok(r.channel)
    ensures ParseArg(args, 1, "channel", USIZE_MAX).Err? ==> r == Unknown(ParseArg(args, 1, "channel", USIZE_MAX).error)
    // a token 2 containing "@" selects the intensity form, even when it also contains "rgb"
    ensures ParseArg(args, 1, "channel", USIZE_MAX).Ok? && |args| > 2 && Contains(args[2], "@") ==>
      var level := IntensityToken(args, 3, "Missing intensity");
      r == if level.Ok? then Channel(ParseArg(args, 1, "channel", USIZE_MAX).value, Intensity(level.value))
           else Unknown(level.error)
    // otherwise a token 2 containing "rgb" selects the colour form; the first bad component is reported
    ensures ParseArg(args, 1, "channel", USIZE_MAX).Ok? && |args| > 2 && !Contains(args[2], "@") && Contains(args[2], "rgb") ==>
      var red, green, blue := ParseArg(args, 3, "red", 255), ParseArg(args, 4, "green", 255), ParseArg(args, 5, "blue", 255);
      (red.Err? ==> r == Unknown(red.error))
      && (red.Ok? && green.Err? ==> r == Unknown(green.error))
      && (red.Ok? && green.Ok? && blue.Err? ==> r == Unknown(blue.error))
      && (red.Ok? && green.Ok? && blue.Ok? ==>
            r == Channel(ParseArg(args, 1, "channel", USIZE_MAX).value, Rgb(red.value, green.value, blue.value)))
    // anything else in token 2, or no token 2, is a usage error
    ensures ParseArg(args, 1, "channel", USIZE_MAX).Ok? && !(|args| > 2 && (Contains(args[2], "@") || Contains(args[2], "rgb"))) ==>
      r == Unknown(CHANNEL_USAGE)
  {
    match ParseArg(args, 1, "channel", USIZE_MAX)
    case Err(e) => Unknown(e)
    case Ok(channel) =>
      if |args| > 2 && Contains(args[2], "@") then
        match IntensityToken(args, 3, "Missing intensity")
        case Ok(level) => Channel(channel, Intensity(level))
        case Err(e) => Unknown(e)
      else if |args| > 2 && Contains(args[2], "rgb") then
        match ParseArg(args, 3, "red", 255)
        case Err(e) => Unknown(e)
        case Ok(r) =>
          match ParseArg(args, 4, "green", 255)
          case Err(e) => Unknown(e)
          case Ok(g) =>
            match ParseArg(args, 5, "blue", 255)
            case Err(e) => Unknown(e)
            case Ok(b) => Channel(channel, Rgb(r, g, b))
      else Unknown(CHANNEL_USAGE)
  }

  /** The address arm: address from token 1, value from token 3; both are parsed, the address error first. */
  function ParseAddressCommand(args: seq<string>): (r: Command)
    ensures r.Address? || r.Unknown?
    ensures r.Address? <==> ParseArg(args, 1, "address", USIZE_MAX).Ok? && IntensityToken(args, 3, "Missing value").Ok?
    ensures r.Address? ==>
      r.address == ParseArg(args, 1, "address", USIZE_MAX).value && r.value == IntensityToken(args, 3, "Missing value").value
    ensures ParseArg(args, 1, "address", USIZE_MAX).Err? ==> r == Unknown(ParseArg(args, 1, "address", USIZE_MAX).error)
    ensures ParseArg(args, 1, "address", USIZE_MAX).Ok? && IntensityToken(args, 3, "Missing value").Err? ==>
      r == Unknown(IntensityToken(args, 3, "Missing value").error)
  {
    var address := ParseArg(args, 1, "address", USIZE_MAX);
    var value := IntensityToken(args, 3, "Missing value");
    if address.Err? then Unknown(address.error)
    else if value.Err? then Unknown(value.error)
    else Address(address.value, value.value)
  }

  /** 'a' occurs in "blackout" but not in "help". */
  lemma KeywordLetters()
    ensures Contains("blackout", "a")
    ensures !Contains("help", "a")
  {
    ContainsIffOccurs("blackout", "a");
    assert OccursAt("blackout", "a", 2);
    ContainsChar("help", 'a');
  }

  /** `parse_command`: the arms are tried in order, "starts with c" before "contains a". */
  function ParseCommand(args: seq<string>): (r: Command)
    ensures args == [] ==> r == Unknown("Empty command")
    ensures r.Channel? ==> |args| > 0 && "c" <= args[0] && ParseArg(args, 1, "channel", USIZE_MAX) == Ok(r.channel)
    ensures r.Address? ==> |args| > 0 && !("c" <= args[0]) && Contains(args[0], "a")
    ensures r.Help? <==> |args| > 0 && args[0] == "help"
    ensures !r.Blackout?
    ensures |args| > 0 && "c" <= args[0] ==> r == ParseChannelCommand(args)
    ensures |args| > 0 && !("c" <= args[0]) && Contains(args[0], "a") ==> r == ParseAddressCommand(args)
    ensures |args| > 0 && !("c" <= args[0]) && !Contains(args[0], "a") && args[0] != "help" ==>
      r == Unknown("Unknown command: " + args[0])
  {
    KeywordLetters();
    if args == [] then Unknown("Empty command")
    else if "c" <= args[0] then ParseChannelCommand(args)
    else if Contains(args[0], "a") then ParseAddressCommand(args)
    else if args[0] == "blackout" then Blackout
    else if args[0] == "help" then
      Help
    else Unknown("Unknown command: " + args[0])
  }

  /** "blackout" contains 'a', so it is read as an address command with no address. */
  lemma BlackoutIsAnAddressCommand(rest: seq<string>)
    ensures ParseCommand(["blackout"]) == Unknown("Missing address argument")
    ensures ParseCommand(["blackout"] + rest) == ParseAddressCommand(["blackout"] + rest)
  {
    KeywordLetters();
    assert (["blackout"] + rest)[0] == "blackout";
    assert !("c" <= "blackout");
  }

  /** In the address form token 2 is never looked at. */
  lemma AddressIgnoresThirdToken(args: seq<string>, other: string)
    requires |args| > 2 && !("c" <= args[0]) && Contains(args[0], "a")
    ensures ParseCommand(args[2 := other]) == ParseCommand(args)
  {
    assert args[2 := other][0] == args[0];
  }

  /** A bad address is reported even when the value is bad too. */
  lemma AddressErrorWins(args: seq<string>)
    requires |args| > 0 && !("c" <= args[0]) && Contains(args[0], "a")
    requires ParseArg(args, 1, "address", USIZE_MAX).Err?
    ensures ParseCommand(args) == Unknown(ParseArg(args, 1, "address", USIZE_MAX).error)
  {
  }

  /** "c <channel> @ <level>" printed in decimal parses back to the same command. */
  lemma ChannelIntensityRoundTrip(channel: nat, level: u8)
    requires channel <= USIZE_MAX
    ensures ParseCommand(["c", Decimal(channel), "@", Decimal(level)]) == Channel(channel, Intensity(level))
  {
    ParseDecimal(channel, USIZE_MAX);
    IntensityRoundTrip(level);
    assert Contains("@", "@");
  }

  /** "c <channel> rgb <r> <g> <b>" printed in decimal parses back to the same command. */
  lemma ChannelRgbRoundTrip(channel: nat, red: u8, green: u8, blue: u8)
    requires channel <= USIZE_MAX
    ensures ParseCommand(["c", Decimal(channel), "rgb", Decimal(red), Decimal(green), Decimal(blue)])
         == Channel(channel, Rgb(red, green, blue))
  {
    var args := ["c", Decimal(channel), "rgb", Decimal(red), Decimal(green), Decimal(blue)];
    DecimalArg(args, 1, "channel", channel, USIZE_MAX);
    DecimalArg(args, 3, "red", red as nat, 255);
    DecimalArg(args, 4, "green", green as nat, 255);
    DecimalArg(args, 5, "blue", blue as nat, 255);
    assert !Contains("rgb", "@") by {
      ContainsChar("rgb", '@');
    }
    assert Contains("rgb", "rgb");
    assert ParseCommand(args) == ParseChannelCommand(args);
  }

  /** A token printed by `Decimal` is read back by `parse_arg`. */
  lemma DecimalArg(args: seq<string>, index: nat, argName: string, n: nat, max: nat)
    requires index < |args| && args[index] == Decimal(n) && n <= max
    ensures ParseArg(args, index, argName, max) == Ok(n)
  {
    ParseDecimal(n, max);
  }

  /** "a <address> @ <value>" printed in decimal parses back to the same command. */
  lemma AddressRoundTrip(address: nat, value: u8)
    requires address <= USIZE_MAX
    ensures ParseCommand(["a", Decimal(address), "@", Decimal(value)]) == Address(address, value)
  {
    ParseDecimal(address, USIZE_MAX);
    IntensityRoundTrip(value);
    assert Contains("a", "a");
    assert "a"[0] != "c"[0];
  }

  /** A token 2 holding both "@" and "rgb" selects the intensity form. */
  lemma AtWinsOverRgb(channel: nat, level: u8)
    requires channel <= USIZE_MAX
    ensures ParseCommand(["c", Decimal(channel), "@rgb", Decimal(level)]) == Channel(channel, Intensity(level))
  {
    ParseDecimal(channel, USIZE_MAX);
    IntensityRoundTrip(level);
    assert OccursAt("@rgb", "@", 0);
    ContainsIffOccurs("@rgb", "@");
  }
}
