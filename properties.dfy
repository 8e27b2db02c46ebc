/** The D-Bus property maps returned by `GetAll` (`Properties`), their
    variant-typed values (`PropertyValue`), the check-then-use accessors that
    read one alternative of a value, and the two loops of the assembler that
    pick the consumed keys out of a map. */
module Properties {
  import opened Wrappers
  import opened Ints

  /** One alternative per member of the source's `std::variant`. The
      `double` alternative is kept only as an opaque bit pattern: no consumed
      key is read as a floating-point number. */
  datatype PropertyValue =
    | PString(s: string)
    | PBool(b: bool)
    | PUint8(u8: uint8)
    | PInt16(i16: int16)
    | PUint16(u16: uint16)
    | PInt32(i32: int32)
    | PUint32(u32: uint32)
    | PInt64(i64: int64)
    | PUint64(u64: uint64)
    | PDouble(bits: uint64)

  /** A `std::map` of property name to value; keys are unique. */
  type Properties = map<string, PropertyValue>

  // Try-get accessors (`std::get_if`): present exactly when the tag matches.

  function GetString(v: PropertyValue): (r: Option<string>)
    ensures r.Some? <==> v.PString?
    ensures r.Some? ==> v == PString(r.value)
  {
    if v.PString? then Some(v.s) else None
  }

  function GetUint32(v: PropertyValue): (r: Option<uint32>)
    ensures r.Some? <==> v.PUint32?
    ensures r.Some? ==> v == PUint32(r.value)
  {
    if v.PUint32? then Some(v.u32) else None
  }

  function GetUint64(v: PropertyValue): (r: Option<uint64>)
    ensures r.Some? <==> v.PUint64?
    ensures r.Some? ==> v == PUint64(r.value)
  {
    if v.PUint64? then Some(v.u64) else None
  }

  // Lookups of one key read through one accessor: absent when the key is
  // missing or holds another alternative.

  function StringProp(props: Properties, key: string): (r: Option<string>)
    ensures r.Some? <==> key in props && props[key].PString?
    ensures r.Some? ==> props[key] == PString(r.value)
  {
    if key in props then GetString(props[key]) else None
  }

  function Uint32Prop(props: Properties, key: string): (r: Option<uint32>)
    ensures r.Some? <==> key in props && props[key].PUint32?
    ensures r.Some? ==> props[key] == PUint32(r.value)
  {
    if key in props then GetUint32(props[key]) else None
  }

  function Uint64Prop(props: Properties, key: string): (r: Option<uint64>)
    ensures r.Some? <==> key in props && props[key].PUint64?
    ensures r.Some? ==> props[key] == PUint64(r.value)
  {
    if key in props then GetUint64(props[key]) else None
  }

  /** Whitespace as `operator>>` on a stream in the classic locale sees it:
      space, tab, newline, vertical tab, form feed, carriage return. */
  predicate IsSpace(c: char)
  {
    c == ' ' || 9 <= c as int <= 13
  }

  predicate AllSpace(s: string)
  {
    forall i :: 0 <= i < |s| ==> IsSpace(s[i])
  }

  predicate NoSpace(s: string)
  {
    forall i :: 0 <= i < |s| ==> !IsSpace(s[i])
  }

  function SkipSpace(s: string): string
  {
    if s != [] && IsSpace(s[0]) then SkipSpace(s[1..]) else s
  }

  function TakeWord(s: string): string
  {
    if s == [] || IsSpace(s[0]) then [] else [s[0]] + TakeWord(s[1..])
  }

  /** What `iss >> word` stores into an empty string: the first
      whitespace-delimited word, or nothing when there is none. */
  function FirstToken(s: string): string
  {
    TakeWord(SkipSpace(s))
  }

  lemma {:induction false} TakeWordSplit(s: string) returns (rest: string)
    ensures s == TakeWord(s) + rest
    ensures NoSpace(TakeWord(s))
    ensures rest == [] || IsSpace(rest[0])
  {
    if s == [] || IsSpace(s[0]) {
      rest := s;
    } else {
      rest := TakeWordSplit(s[1..]);
      assert s == [s[0]] + s[1..];
    }
  }

  lemma {:induction false} SkipSpaceSplit(s: string) returns (lead: string)
    ensures s == lead + SkipSpace(s)
    ensures AllSpace(lead)
    ensures SkipSpace(s) == [] || !IsSpace(SkipSpace(s)[0])
  {
    if s != [] && IsSpace(s[0]) {
      var l := SkipSpaceSplit(s[1..]);
      lead := [s[0]] + l;
      assert s == [s[0]] + s[1..];
    } else {
      lead := [];
    }
  }

  /** The first token splits its input into leading whitespace, the token
      (which holds no whitespace) and a rest that is empty or starts with
      whitespace; an empty token means the input was all whitespace. */
  lemma FirstTokenSplit(s: string) returns (lead: string, rest: string)
    ensures s == lead + FirstToken(s) + rest
    ensures AllSpace(lead) && NoSpace(FirstToken(s))
    ensures rest == [] || IsSpace(rest[0])
    ensures FirstToken(s) == [] ==> AllSpace(s)
  {
    lead := SkipSpaceSplit(s);
    rest := TakeWordSplit(SkipSpace(s));
    if FirstToken(s) == [] {
      assert SkipSpace(s) == [];
      assert s == lead;
    }
  }

  lemma {:induction false} SkipSpacePrefix(lead: string, s: string)
    requires AllSpace(lead)
    requires s == [] || !IsSpace(s[0])
    ensures SkipSpace(lead + s) == s
    decreases |lead|
  {
    if lead != [] {
      assert (lead + s)[1..] == lead[1..] + s;
      SkipSpacePrefix(lead[1..], s);
    }
  }

  lemma {:induction false} TakeWordPrefix(word: string, rest: string)
    requires NoSpace(word)
    requires rest == [] || IsSpace(rest[0])
    ensures TakeWord(word + rest) == word
    decreases |word|
  {
    if word != [] {
      assert (word + rest)[1..] == word[1..] + rest;
      TakeWordPrefix(word[1..], rest);
      assert word == [word[0]] + word[1..];
    }
  }

  /** Conversely, any such split names the first token: whatever follows
      the first word is discarded. */
  lemma FirstTokenOfSplit(lead: string, word: string, rest: string)
    requires AllSpace(lead) && NoSpace(word) && word != []
    requires rest == [] || IsSpace(rest[0])
    ensures FirstToken(lead + word + rest) == word
  {
    assert lead + word + rest == lead + (word + rest);
    SkipSpacePrefix(lead, word + rest);
    TakeWordPrefix(word, rest);
  }

  /** The reference code kept from the `EventId` property: its first token,
      or the empty string when the key is missing or not a string. */
  function RefCode(loggingEntry: Properties): string
  {
    match StringProp(loggingEntry, "EventId")
    case Some(eventId) => FirstToken(eventId)
    case None => ""
  }

  /** The loop over the `xyz.openbmc_project.Logging.Entry` properties: the
      callout text of `Resolution` and the reference code of `EventId`, each
      left empty when its key is missing or holds another alternative. The
      map is visited key by key; keys are unique, so the visiting order does
      not change the outcome. */
  method ReadLoggingEntry(props: Properties) returns (callouts: string, refCode: string)
    ensures callouts == StringProp(props, "Resolution").GetOr("")
    ensures refCode == RefCode(props)
    ensures "Resolution" !in props || !props["Resolution"].PString? ==> callouts == ""
    ensures "EventId" !in props || !props["EventId"].PString? ==> refCode == ""
  {
    callouts, refCode := "", "";
    var keys := props.Keys;
    while keys != {}
      invariant keys <= props.Keys
      invariant callouts == if "Resolution" in keys then "" else StringProp(props, "Resolution").GetOr("")
      invariant refCode == if "EventId" in keys then "" else RefCode(props)
      decreases keys
    {
      var prop :| prop in keys;
      var propValue := props[prop];
      if prop == "Resolution" {
        var calloutsPtr := GetString(propValue);
        if calloutsPtr.Some? {
          callouts := calloutsPtr.value;
        }
      } else if prop == "EventId" {
        var eventIdPtr := GetString(propValue);
        if eventIdPtr.Some? {
          refCode := FirstToken(eventIdPtr.value);
        }
      }
      keys := keys - {prop};
    }
  }

  /** The loop over the `org.open_power.Logging.PEL.Entry` properties: the
      platform log id (`PlatformLogID`, a uint32) and the creation time
      (`Timestamp`, a uint64), each left 0 when its key is missing or holds
      another alternative. */
  method ReadPelEntry(props: Properties) returns (plid: uint32, timestamp: uint64)
    ensures plid == Uint32Prop(props, "PlatformLogID").GetOr(0)
    ensures timestamp == Uint64Prop(props, "Timestamp").GetOr(0)
    ensures "PlatformLogID" !in props || !props["PlatformLogID"].PUint32? ==> plid == 0
    ensures "Timestamp" !in props || !props["Timestamp"].PUint64? ==> timestamp == 0
  {
    plid, timestamp := 0, 0;
    var keys := props.Keys;
    while keys != {}
      invariant keys <= props.Keys
      invariant plid == if "PlatformLogID" in keys then 0 else Uint32Prop(props, "PlatformLogID").GetOr(0)
      invariant timestamp == if "Timestamp" in keys then 0 else Uint64Prop(props, "Timestamp").GetOr(0)
      decreases keys
    {
      var prop :| prop in keys;
      var propValue := props[prop];
      if prop == "PlatformLogID" {
        var plidPtr := GetUint32(propValue);
        if plidPtr.Some? {
          plid := plidPtr.value;
        }
      } else if prop == "Timestamp" {
        var timestampPtr := GetUint64(propValue);
        if timestampPtr.Some? {
          timestamp := timestampPtr.value;
        }
      }
      keys := keys - {prop};
    }
  }
}
