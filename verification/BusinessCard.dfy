/**
 The business card: a plain-text form of a device's contact facts, its printer, and the tolerant parser for
 pasted text. Whether a string is a socket address with a non-zero port is a parameter (`std::net::SocketAddr`).
 Lower-casing is done for ASCII only: any other character makes a fingerprint invalid either way.
 */
module BusinessCards {
  import opened Prelude
  import opened Text

  const MAX_INPUT: nat := 8192
  const MAX_ADDRESS: nat := 64
  const MAX_ENDPOINT: nat := 128
  const MAX_NAME: nat := 64
  const MAX_ADDRESSES: nat := 16
  const BOM: char := '\U{FEFF}'

  const HEADER: string := "LocalTrans 名片"

  /** What a line is about. */
  datatype Tag = NameTag | PrintTag | AddressTag | ExitTag | RelayTag | UnknownTag

  /** The label the printer writes. */
  function Label(tag: Tag): string {
    match tag
    case NameTag => "名称"
    case PrintTag => "指纹"
    case AddressTag => "地址"
    case ExitTag => "公网"
    case RelayTag => "中继"
    case UnknownTag => ""
  }

  /** The label the parser meets; names have a second spelling. */
  function TagOf(name: string): Tag {
    if name == Label(NameTag) || name == "设备名" then NameTag
    else if name == Label(PrintTag) then PrintTag
    else if name == Label(AddressTag) then AddressTag
    else if name == Label(ExitTag) then ExitTag
    else if name == Label(RelayTag) then RelayTag
    else UnknownTag
  }

  datatype Card = Card(name: string, fingerprint: string, addresses: seq<string>, exit: Option<string>, relay: Option<string>)

  datatype ParseError =
    | Empty
    | InputTooLong
    | MissingField(field: Tag)
    | BadName
    | BadFingerprint
    | BadAddress(raw: string)
    | BadEndpoint(kind: Tag, raw: string)
    | TooManyAddresses

  /** What is known of strings that parse as socket addresses: not empty, nothing white in them. */
  ghost predicate Lawful(sock: string -> bool) {
    forall s | sock(s) :: s != "" && forall c <- s :: !IsWhite(c)
  }

  // ----- Validators -----

  predicate IsLowerHex(c: char) {
    '0' <= c <= '9' || 'a' <= c <= 'f'
  }

  predicate ValidPrint(s: string) {
    |s| == 64 && forall c <- s :: IsLowerHex(c)
  }

  predicate ValidName(s: string) {
    |s| <= MAX_NAME && forall c <- s :: !IsControl(c)
  }

  predicate ValidAddress(sock: string -> bool, s: string) {
    |s| <= MAX_ADDRESS && sock(s)
  }

  function Digits(s: string): Option<nat> {
    if s == "" then Some(0) else
    var high := Digits(s[..|s| - 1]);
    var c := s[|s| - 1];
    if high.None? || !('0' <= c <= '9') then None else Some(high.value * 10 + (c as int - '0' as int))
  }

  /** `parse::<u16>`: decimal digits, at least one, one plus sign allowed in front. */
  predicate IsPort(s: string) {
    var d := if s != "" && s[0] == '+' then s[1..] else s;
    d != "" && Digits(d).Some? && Digits(d).value < 0x1_0000
  }

  /** Position of the last colon, the length standing for none. */
  function LastColon(s: string): (i: nat)
    ensures i <= |s|
    ensures i < |s| ==> s[i] == ':' && ':' !in s[i + 1..]
    ensures i == |s| ==> ':' !in s
  {
    if s == "" then 0 else
    if s[|s| - 1] == ':' then |s| - 1 else
    var i := LastColon(s[..|s| - 1]);
    if i == |s| - 1 then |s| else
    assert s[i + 1..] == s[..|s| - 1][i + 1..] + [s[|s| - 1]];
    i
  }

  predicate ValidEndpoint(s: string) {
    && |s| <= MAX_ENDPOINT
    && (forall c <- s :: !IsWhite(c) && !IsControl(c))
    && var i := LastColon(s); i < |s| && i > 0 && IsPort(s[i + 1..])
  }

  /** What the parser lets through, and so what the printer may be given. */
  ghost predicate ValidCard(sock: string -> bool, c: Card) {
    && c.name != "" && Tight(c.name) && ValidName(c.name)
    && ValidPrint(c.fingerprint)
    && 0 < |c.addresses| <= MAX_ADDRESSES
    && (forall a <- c.addresses :: ValidAddress(sock, a))
    && Distinct(c.addresses)
    && (c.exit.Some? ==> ValidEndpoint(c.exit.value))
    && (c.relay.Some? ==> ValidEndpoint(c.relay.value))
  }

  predicate Distinct(s: seq<string>) {
    forall i, j | 0 <= i < j < |s| :: s[i] != s[j]
  }

  // ----- Printing -----

  function Labelled(tag: Tag, value: string): string {
    Label(tag) + ": " + value
  }

  function AddressLines(addresses: seq<string>): seq<string> {
    if addresses == [] then [] else [Labelled(AddressTag, addresses[0])] + AddressLines(addresses[1..])
  }

  function OptionalLine(tag: Tag, value: Option<string>): seq<string> {
    if value.Some? then [Labelled(tag, value.value)] else []
  }

  function CardLines(c: Card): seq<string> {
    [HEADER, Labelled(NameTag, c.name), Labelled(PrintTag, c.fingerprint)] + AddressLines(c.addresses)
    + OptionalLine(ExitTag, c.exit) + OptionalLine(RelayTag, c.relay)
  }

  /** `to_text`. */
  function ToText(c: Card): string {
    TrimEnd(Unlines(CardLines(c)))
  }

  method Print(c: Card) returns (s: string)
    ensures s == ToText(c)
  {
    ghost var ls: seq<string> := [];
    s := "";
    s, ls := s + HEADER + "\n", Grown(s, ls, HEADER);
    s, ls := s + Labelled(NameTag, c.name) + "\n", Grown(s, ls, Labelled(NameTag, c.name));
    s, ls := s + Labelled(PrintTag, c.fingerprint) + "\n", Grown(s, ls, Labelled(PrintTag, c.fingerprint));
    ghost var head := ls;
    var i := 0;
    assert c.addresses[0..] == c.addresses;
    while i < |c.addresses|
      invariant i <= |c.addresses|
      invariant s == Unlines(ls) && ls + AddressLines(c.addresses[i..]) == head + AddressLines(c.addresses)
    {
      ghost var line := Labelled(AddressTag, c.addresses[i]);
      assert c.addresses[i..][1..] == c.addresses[i + 1..];
      Associates(ls, [line], AddressLines(c.addresses[i + 1..]));
      s, ls := s + Labelled(AddressTag, c.addresses[i]) + "\n", Grown(s, ls, line);
      i := i + 1;
    }
    assert ls + [] == ls;
    if c.exit.Some? {
      s, ls := s + Labelled(ExitTag, c.exit.value) + "\n", Grown(s, ls, Labelled(ExitTag, c.exit.value));
    }
    if c.relay.Some? {
      s, ls := s + Labelled(RelayTag, c.relay.value) + "\n", Grown(s, ls, Labelled(RelayTag, c.relay.value));
    }
    assert ls == CardLines(c);
    s := TrimEnd(s);
  }

  /** One more printed line. */
  ghost function Grown(s: string, ls: seq<string>, l: string): (r: seq<string>)
    requires s == Unlines(ls)
    ensures r == ls + [l] && Unlines(r) == s + l + "\n"
  {
    UnlinesJoins(ls, [l]);
    OneLineText(l);
    Associates(s, l, "\n");
    ls + [l]
  }

  lemma OneLineText(l: string)
    ensures Unlines([l]) == l + "\n" && Unlines([]) == ""
  {
  }

  // ----- Parsing -----

  datatype Draft = Draft(name: Option<string>, fingerprint: Option<string>, addresses: seq<string>,
                         exit: Option<string>, relay: Option<string>)

  const Nothing: Draft := Draft(None, None, [], None, None)

  /** Position of the first colon, ASCII or full-width. */
  function Colon(s: string): (i: nat)
    ensures i <= |s|
  {
    if s == "" || s[0] == ':' || s[0] == '：' then 0 else 1 + Colon(s[1..])
  }

  function SplitLabel(line: string): Option<(string, string)> {
    var i := Colon(line);
    if i == |line| then None else Some((Trim(line[..i]), Trim(line[i + 1..])))
  }

  function LowerChar(c: char): char {
    if 'A' <= c <= 'Z' then (c as int + 32) as char else c
  }

  function Lower(s: string): string {
    if s == "" then "" else [LowerChar(s[0])] + Lower(s[1..])
  }

  /** One labelled payload; labels not listed are dropped. */
  function Noted(sock: string -> bool, d: Draft, tag: Tag, value: string): Result<Draft, ParseError> {
    match tag
    case NameTag => Ok(d.(name := Some(value)))
    case PrintTag => Ok(d.(fingerprint := Some(Lower(value))))
    case AddressTag =>
      if |d.addresses| >= MAX_ADDRESSES then Err(TooManyAddresses)
      else if !ValidAddress(sock, value) then Err(BadAddress(value))
      else Ok(if value in d.addresses then d else d.(addresses := d.addresses + [value]))
    case ExitTag =>
      if ValidEndpoint(value) then Ok(d.(exit := Some(value))) else Err(BadEndpoint(ExitTag, value))
    case RelayTag =>
      if ValidEndpoint(value) then Ok(d.(relay := Some(value))) else Err(BadEndpoint(RelayTag, value))
    case UnknownTag => Ok(d)
  }

  /** The label and payload a line carries, if any. */
  function Reading(line: string): Option<(Tag, string)> {
    var l := Trim(line);
    if l == "" then None else
    var split := SplitLabel(l);
    if split.None? then None else Some((TagOf(split.value.0), split.value.1))
  }

  function LineNoted(sock: string -> bool, d: Draft, line: string): Result<Draft, ParseError> {
    var r := Reading(line);
    if r.None? then Ok(d) else Noted(sock, d, r.value.0, r.value.1)
  }

  function LinesNoted(sock: string -> bool, d: Draft, ls: seq<string>): Result<Draft, ParseError>
    decreases |ls|
  {
    if ls == [] then Ok(d) else
    var r := LineNoted(sock, d, ls[0]);
    if r.Err? then r else LinesNoted(sock, r.value, ls[1..])
  }

  /** The checks after the last line. */
  function Settled(d: Draft, text: string): Result<Card, ParseError> {
    if Trim(text) == "" then Err(Empty)
    else if d.name.None? || d.name.value == "" then Err(MissingField(NameTag))
    else if !ValidName(d.name.value) then Err(BadName)
    else if d.fingerprint.None? then Err(MissingField(PrintTag))
    else if !ValidPrint(d.fingerprint.value) then Err(BadFingerprint)
    else if d.addresses == [] then Err(MissingField(AddressTag))
    else Ok(Card(d.name.value, d.fingerprint.value, d.addresses, d.exit, d.relay))
  }

  function StripBom(text: string): string {
    if text != "" && text[0] == BOM then text[1..] else text
  }

  function ParseBody(sock: string -> bool, text: string): Result<Card, ParseError> {
    if |text| > MAX_INPUT then Err(InputTooLong) else
    var r := LinesNoted(sock, Nothing, Lines(text));
    if r.Err? then Err(r.error) else Settled(r.value, text)
  }

  /** `BusinessCard::parse`. */
  function Parse(sock: string -> bool, text: string): Result<Card, ParseError> {
    ParseBody(sock, StripBom(text))
  }

  method ParseText(sock: string -> bool, input: string) returns (r: Result<Card, ParseError>)
    ensures r == Parse(sock, input)
  {
    var text := StripBom(input);
    if |text| > MAX_INPUT {
      return Err(InputTooLong);
    }
    var name: Option<string>, fingerprint: Option<string> := None, None;
    var addresses: seq<string> := [];
    var exit: Option<string>, relay: Option<string> := None, None;
    var ls := Lines(text);
    var i := 0;
    assert ls[0..] == ls;
    while i < |ls|
      invariant i <= |ls|
      invariant LinesNoted(sock, Nothing, ls) == LinesNoted(sock, Draft(name, fingerprint, addresses, exit, relay), ls[i..])
    {
      var line := Trim(ls[i]);
      assert ls[i..][1..] == ls[i + 1..];
      i := i + 1;
      if line == "" {
        continue;
      }
      var split := SplitLabel(line);
      if split.None? {
        continue;
      }
      var value := split.value.1;
      match TagOf(split.value.0) {
        case NameTag => name := Some(value);
        case PrintTag => fingerprint := Some(Lower(value));
        case AddressTag =>
          if |addresses| >= MAX_ADDRESSES {
            return Err(TooManyAddresses);
          }
          if !ValidAddress(sock, value) {
            return Err(BadAddress(value));
          }
          if value !in addresses {
            addresses := addresses + [value];
          }
        case ExitTag =>
          if !ValidEndpoint(value) {
            return Err(BadEndpoint(ExitTag, value));
          }
          exit := Some(value);
        case RelayTag =>
          if !ValidEndpoint(value) {
            return Err(BadEndpoint(RelayTag, value));
          }
          relay := Some(value);
        case UnknownTag =>
      }
    }
    r := Settled(Draft(name, fingerprint, addresses, exit, relay), text);
  }

  // ----- What parsing yields is valid -----

  ghost predicate DraftOk(sock: string -> bool, d: Draft) {
    && (d.name.Some? ==> Tight(d.name.value))
    && |d.addresses| <= MAX_ADDRESSES && Distinct(d.addresses)
    && (forall a <- d.addresses :: ValidAddress(sock, a))
    && (d.exit.Some? ==> ValidEndpoint(d.exit.value))
    && (d.relay.Some? ==> ValidEndpoint(d.relay.value))
  }

  lemma ReadingIsTight(line: string)
    ensures Reading(line).Some? ==> Tight(Reading(line).value.1)
  {
  }

  lemma NotedKeepsDraftOk(sock: string -> bool, d: Draft, tag: Tag, value: string)
    requires DraftOk(sock, d) && Tight(value)
    ensures Noted(sock, d, tag, value).Ok? ==> DraftOk(sock, Noted(sock, d, tag, value).value)
  {
    hide ValidEndpoint, Tight;
  }

  lemma {:induction false} LinesKeepDraftOk(sock: string -> bool, d: Draft, ls: seq<string>)
    requires DraftOk(sock, d)
    ensures LinesNoted(sock, d, ls).Ok? ==> DraftOk(sock, LinesNoted(sock, d, ls).value)
    decreases |ls|
  {
    hide Reading, Tight, DraftOk, Noted;
    if ls != [] {
      var r := Reading(ls[0]);
      if r.Some? {
        ReadingIsTight(ls[0]);
        NotedKeepsDraftOk(sock, d, r.value.0, r.value.1);
      }
      var n := LineNoted(sock, d, ls[0]);
      if n.Ok? {
        LinesKeepDraftOk(sock, n.value, ls[1..]);
      }
    }
  }

  /** Whatever text is pasted, a card that comes out is valid. */
  lemma ParsedIsValid(sock: string -> bool, text: string)
    requires Parse(sock, text).Ok?
    ensures ValidCard(sock, Parse(sock, text).value)
  {
    LinesKeepDraftOk(sock, Nothing, Lines(StripBom(text)));
  }

  // ----- Round trip -----

  /** A label as the printer writes them: tight, not empty, without a colon, and known to the parser. */
  predicate GoodLabel(tag: Tag) {
    var l := Label(tag);
    l != "" && Tight(l) && ':' !in l && '：' !in l && OneLine(l) && |l| == 2 && TagOf(l) == tag
  }

  lemma LabelsAreGood(tag: Tag)
    requires !tag.UnknownTag?
    ensures GoodLabel(tag)
  {
  }

  lemma {:induction false} ColonAfter(l: string, rest: string)
    requires ':' !in l && '：' !in l
    ensures Colon(l + ":" + rest) == |l|
  {
    var s := l + ":" + rest;
    if l != "" {
      ColonAfter(l[1..], rest);
      assert s[1..] == l[1..] + ":" + rest;
    }
  }

  lemma ReadLabelled(tag: Tag, value: string)
    requires !tag.UnknownTag? && value != "" && Tight(value)
    ensures Reading(Labelled(tag, value)) == Some((tag, value))
  {
    LabelsAreGood(tag);
    var l := Label(tag);
    var line := Labelled(tag, value);
    assert line[0] == l[0] && line[|line| - 1] == value[|value| - 1];
    TrimTight(line);
    assert line == l + ":" + (" " + value);
    ColonAfter(l, " " + value);
    assert line[..|l|] == l && line[|l| + 1..] == " " + value;
    TrimTight(l);
    TrimAfterSpace(value);
  }

  lemma HeaderShape()
    ensures HEADER != "" && Tight(HEADER) && ':' !in HEADER && '：' !in HEADER && OneLine(HEADER) && |HEADER| == 13
  {
  }

  lemma HeaderIsNoise()
    ensures Reading(HEADER) == None && Solid(HEADER)
  {
    HeaderShape();
    hide HEADER, TagOf;
    TrimTight(HEADER);
    NoColon(HEADER);
  }

  lemma {:induction false} NoColon(s: string)
    requires ':' !in s && '：' !in s
    ensures Colon(s) == |s|
  {
    if s != "" { NoColon(s[1..]); }
  }

  lemma {:induction false} LinesNotedJoin(sock: string -> bool, d: Draft, a: seq<string>, b: seq<string>)
    ensures LinesNoted(sock, d, a + b) ==
            var r := LinesNoted(sock, d, a); if r.Err? then r else LinesNoted(sock, r.value, b)
    decreases |a|
  {
    if a == [] {
      assert a + b == b;
    } else {
      assert (a + b)[1..] == a[1..] + b;
      var r := LineNoted(sock, d, a[0]);
      if r.Ok? { LinesNotedJoin(sock, r.value, a[1..], b); }
    }
  }

  lemma AddressIsTight(sock: string -> bool, a: string)
    requires Lawful(sock) && ValidAddress(sock, a)
    ensures a != "" && Tight(a) && OneLine(a)
  {
    assert a[0] in a && a[|a| - 1] in a;
    assert IsWhite('\n');
  }

  lemma {:induction false} AddressesNoted(sock: string -> bool, d: Draft, todo: seq<string>)
    requires Lawful(sock) && Distinct(d.addresses + todo) && |d.addresses + todo| <= MAX_ADDRESSES
    requires forall a <- todo :: ValidAddress(sock, a)
    ensures LinesNoted(sock, d, AddressLines(todo)) == Ok(d.(addresses := d.addresses + todo))
    decreases |todo|
  {
    hide Reading, IsWhite, Labelled;
    if todo == [] {
      assert d.addresses + todo == d.addresses;
    } else {
      var a := todo[0];
      assert a in todo && Tight(a) && a != "" by { AddressIsTight(sock, a); }
      ReadLabelled(AddressTag, a);
      forall i | 0 <= i < |d.addresses|
        ensures d.addresses[i] != a
      {
        assert (d.addresses + todo)[i] != (d.addresses + todo)[|d.addresses|];
      }
      var d' := d.(addresses := d.addresses + [a]);
      assert LineNoted(sock, d, Labelled(AddressTag, a)) == Ok(d');
      assert d'.addresses + todo[1..] == d.addresses + todo;
      AddressesNoted(sock, d', todo[1..]);
    }
  }

  lemma EndpointIsTight(s: string)
    requires ValidEndpoint(s)
    ensures s != "" && Tight(s) && OneLine(s)
  {
    assert s != "";
    assert s[0] in s && s[|s| - 1] in s;
  }

  lemma {:induction false} LowerKeepsHex(s: string)
    requires forall c <- s :: IsLowerHex(c)
    ensures Lower(s) == s
  {
    if s != "" {
      assert s[0] in s;
      LowerKeepsHex(s[1..]);
    }
  }

  lemma PrintIsTight(s: string)
    requires ValidPrint(s)
    ensures s != "" && Tight(s) && OneLine(s)
  {
    assert s[0] in s && s[63] in s;
  }

  /** Noting one more labelled line in front. */
  lemma NotedFirst(sock: string -> bool, d: Draft, tag: Tag, value: string, more: seq<string>)
    requires !tag.UnknownTag? && value != "" && Tight(value) && Noted(sock, d, tag, value).Ok?
    ensures LinesNoted(sock, d, [Labelled(tag, value)] + more) == LinesNoted(sock, Noted(sock, d, tag, value).value, more)
  {
    ReadLabelled(tag, value);
    hide Reading, Tight, Noted;
    assert ([Labelled(tag, value)] + more)[1..] == more;
  }

  /** An optional endpoint's line, printed or not, is noted as that endpoint. */
  lemma OneOptionalNoted(sock: string -> bool, d: Draft, tag: Tag, value: Option<string>)
    requires tag.ExitTag? || tag.RelayTag?
    requires value.Some? ==> ValidEndpoint(value.value)
    requires if tag.ExitTag? then d.exit.None? else d.relay.None?
    ensures LinesNoted(sock, d, OptionalLine(tag, value)) == Ok(if tag.ExitTag? then d.(exit := value) else d.(relay := value))
  {
    hide Reading, Tight, Labelled, OneLine, ValidEndpoint;
    if value.Some? {
      EndpointIsTight(value.value);
      NotedFirst(sock, d, tag, value.value, []);
      assert [Labelled(tag, value.value)] + [] == [Labelled(tag, value.value)];
    }
  }

  lemma OptionalNoted(sock: string -> bool, d: Draft, exit: Option<string>, relay: Option<string>)
    requires d.exit.None? && d.relay.None?
    requires exit.Some? ==> ValidEndpoint(exit.value)
    requires relay.Some? ==> ValidEndpoint(relay.value)
    ensures LinesNoted(sock, d, OptionalLine(ExitTag, exit) + OptionalLine(RelayTag, relay)) ==
            Ok(d.(exit := exit, relay := relay))
  {
    hide LinesNoted, OptionalLine, ValidEndpoint;
    LinesNotedJoin(sock, d, OptionalLine(ExitTag, exit), OptionalLine(RelayTag, relay));
    OneOptionalNoted(sock, d, ExitTag, exit);
    OneOptionalNoted(sock, d.(exit := exit), RelayTag, relay);
  }

  lemma HeadNoted(sock: string -> bool, c: Card, more: seq<string>)
    requires ValidCard(sock, c)
    ensures LinesNoted(sock, Nothing, [HEADER] + ([Labelled(NameTag, c.name)] + ([Labelled(PrintTag, c.fingerprint)] + more)))
            == LinesNoted(sock, Nothing.(name := Some(c.name), fingerprint := Some(c.fingerprint)), more)
  {
    var third := [Labelled(PrintTag, c.fingerprint)] + more;
    var second := [Labelled(NameTag, c.name)] + third;
    HeaderIsNoise();
    PrintIsTight(c.fingerprint);
    LowerKeepsHex(c.fingerprint);
    NotedFirst(sock, Nothing, NameTag, c.name, third);
    NotedFirst(sock, Nothing.(name := Some(c.name)), PrintTag, c.fingerprint, more);
    hide Reading, Tight, Labelled, ValidName, ValidPrint, HEADER, ValidEndpoint, ValidAddress;
    assert ([HEADER] + second)[1..] == second;
  }

  lemma BodyNoted(sock: string -> bool, d: Draft, c: Card)
    requires Lawful(sock) && ValidCard(sock, c) && d.addresses == [] && d.exit.None? && d.relay.None?
    ensures LinesNoted(sock, d, AddressLines(c.addresses) + (OptionalLine(ExitTag, c.exit) + OptionalLine(RelayTag, c.relay)))
            == Ok(d.(addresses := c.addresses, exit := c.exit, relay := c.relay))
  {
    hide LinesNoted, AddressLines, OptionalLine, ValidEndpoint, ValidAddress, ValidName, ValidPrint, Tight;
    assert [] + c.addresses == c.addresses;
    AddressesNoted(sock, d, c.addresses);
    LinesNotedJoin(sock, d, AddressLines(c.addresses), OptionalLine(ExitTag, c.exit) + OptionalLine(RelayTag, c.relay));
    OptionalNoted(sock, d.(addresses := c.addresses), c.exit, c.relay);
  }

  lemma Regroup<T>(a: T, b: T, c: T, x: seq<T>, y: seq<T>, z: seq<T>)
    ensures [a, b, c] + x + y + z == [a] + ([b] + ([c] + (x + (y + z))))
  {
  }

  lemma CardLinesNoted(sock: string -> bool, c: Card)
    requires Lawful(sock) && ValidCard(sock, c)
    ensures LinesNoted(sock, Nothing, CardLines(c)) == Ok(Draft(Some(c.name), Some(c.fingerprint), c.addresses, c.exit, c.relay))
  {
    var tail := OptionalLine(ExitTag, c.exit) + OptionalLine(RelayTag, c.relay);
    var body := AddressLines(c.addresses) + tail;
    HeadNoted(sock, c, body);
    BodyNoted(sock, Nothing.(name := Some(c.name), fingerprint := Some(c.fingerprint)), c);
    Regroup(HEADER, Labelled(NameTag, c.name), Labelled(PrintTag, c.fingerprint),
            AddressLines(c.addresses), OptionalLine(ExitTag, c.exit), OptionalLine(RelayTag, c.relay));
    hide LinesNoted, AddressLines, OptionalLine, Labelled, HEADER, ValidCard;
    assert CardLines(c) == [HEADER] + ([Labelled(NameTag, c.name)] + ([Labelled(PrintTag, c.fingerprint)] + body));
  }

  /** A printed line: one line, not empty, ending in something that trimming leaves alone. */
  predicate Solid(l: string) {
    OneLine(l) && l != "" && !IsWhite(l[|l| - 1])
  }

  lemma LabelledIsSolid(tag: Tag, value: string)
    requires !tag.UnknownTag? && OneLine(value) && value != "" && Tight(value)
    ensures Solid(Labelled(tag, value)) && |Labelled(tag, value)| == |value| + 4
  {
    LabelsAreGood(tag);
  }

  lemma {:induction false} AddressLinesSolid(sock: string -> bool, addresses: seq<string>)
    requires Lawful(sock) && forall a <- addresses :: ValidAddress(sock, a)
    ensures |AddressLines(addresses)| == |addresses|
    ensures forall l <- AddressLines(addresses) :: Solid(l) && |l| <= MAX_ADDRESS + 4
    decreases |addresses|
  {
    if addresses != [] {
      var a := addresses[0];
      assert a in addresses;
      AddressIsTight(sock, a);
      LabelledIsSolid(AddressTag, a);
      AddressLinesSolid(sock, addresses[1..]);
    }
  }

  lemma OptionalSolid(tag: Tag, value: Option<string>)
    requires !tag.UnknownTag? && (value.Some? ==> ValidEndpoint(value.value))
    ensures forall l <- OptionalLine(tag, value) :: Solid(l) && |l| <= MAX_ENDPOINT + 4
  {
    if value.Some? {
      EndpointIsTight(value.value);
      LabelledIsSolid(tag, value.value);
    }
  }

  lemma NameIsOneLine(s: string)
    requires ValidName(s)
    ensures OneLine(s)
  {
    assert IsControl('\n');
  }

  lemma NameLineSolid(name: string)
    requires ValidName(name) && name != "" && Tight(name)
    ensures Solid(Labelled(NameTag, name)) && |Labelled(NameTag, name)| <= MAX_ENDPOINT + 4
  {
    NameIsOneLine(name);
    LabelledIsSolid(NameTag, name);
  }

  lemma PrintLineSolid(fingerprint: string)
    requires ValidPrint(fingerprint)
    ensures Solid(Labelled(PrintTag, fingerprint)) && |Labelled(PrintTag, fingerprint)| <= MAX_ENDPOINT + 4
  {
    PrintIsTight(fingerprint);
    LabelledIsSolid(PrintTag, fingerprint);
  }

  lemma HeadSolid(sock: string -> bool, c: Card)
    requires ValidCard(sock, c)
    ensures forall l <- [HEADER, Labelled(NameTag, c.name), Labelled(PrintTag, c.fingerprint)] ::
              Solid(l) && |l| <= MAX_ENDPOINT + 4
  {
    hide HEADER, Labelled, Solid, ValidEndpoint, ValidAddress, ValidName, ValidPrint, Tight, Distinct, OneLine;
    NameLineSolid(c.name);
    PrintLineSolid(c.fingerprint);
    HeaderShape();
    HeaderIsNoise();
  }

  lemma CardLinesSolid(sock: string -> bool, c: Card)
    requires Lawful(sock) && ValidCard(sock, c)
    ensures 4 <= |CardLines(c)| <= MAX_ADDRESSES + 5
    ensures forall l <- CardLines(c) :: Solid(l) && |l| <= MAX_ENDPOINT + 4
  {
    hide HEADER, Labelled, Solid, AddressLines, OptionalLine, Distinct;
    hide ValidEndpoint, ValidAddress, ValidName, ValidPrint, Tight;
    HeadSolid(sock, c);
    AddressLinesSolid(sock, c.addresses);
    OptionalSolid(ExitTag, c.exit);
    OptionalSolid(RelayTag, c.relay);
    OptionalIsShort(c);
  }

  lemma OptionalIsShort(c: Card)
    ensures |OptionalLine(ExitTag, c.exit)| <= 1 && |OptionalLine(RelayTag, c.relay)| <= 1
  {
  }

  /** Trimming the end of solid lines takes exactly the last line feed. */
  lemma TrimEndOfLines(ls: seq<string>, last: string)
    requires Solid(last)
    ensures TrimEnd(Unlines(ls + [last])) == Unlines(ls) + last
  {
    FeedIsWhite();
    hide IsWhite, Unlines, OneLine;
    UnlinesJoins(ls, [last]);
    OneLineText(last);

    var kept := Unlines(ls) + last;
    Associates(Unlines(ls), last, "\n");
    var s := kept + "\n";
    assert s == Unlines(ls + [last]) && s[..|s| - 1] == kept && s[|s| - 1] == '\n';
    assert TrimEnd(kept) == kept;
  }

  lemma {:induction false} UnlinesLength(ls: seq<string>, most: nat)
    requires forall l <- ls :: |l| <= most
    ensures |Unlines(ls)| <= |ls| * (most + 1)
    decreases |ls|
  {
    if ls != [] {
      UnlinesLength(ls[1..], most);
      assert |ls| * (most + 1) == (|ls| - 1) * (most + 1) + (most + 1);
    }
  }

  /** The printed text of a valid card: its lines read back, within the input limit, and not blank. */
  lemma PrintedText(sock: string -> bool, c: Card)
    requires Lawful(sock) && ValidCard(sock, c)
    ensures Lines(ToText(c)) == CardLines(c)
    ensures |ToText(c)| <= MAX_INPUT && ToText(c) != "" && ToText(c)[0] == 'L'
  {
    hide Lawful, ValidCard, Solid;
    CardLinesSolid(sock, c);
    assert CardLines(c)[0] == HEADER;
    TextOfLines(CardLines(c));
  }

  lemma TextOfLines(all: seq<string>)
    requires 4 <= |all| <= MAX_ADDRESSES + 5 && all[0] == HEADER
    requires forall l <- all :: Solid(l) && |l| <= MAX_ENDPOINT + 4
    ensures var text := TrimEnd(Unlines(all)); Lines(text) == all && |text| <= MAX_INPUT && text != "" && text[0] == 'L'
    ensures TrimEnd(Unlines(all)) == Unlines(all[..|all| - 1]) + all[|all| - 1]
  {
    hide IsWhite, Lines;
    var ls, last := all[..|all| - 1], all[|all| - 1];
    assert all == ls + [last];
    assert forall l <- ls :: l in all;
    assert last in all;
    TrimEndOfLines(ls, last);
    LinesWithoutLastFeed(ls, last);
    UnlinesLength(all, MAX_ENDPOINT + 4);
    assert |all| * (MAX_ENDPOINT + 5) <= 21 * (MAX_ENDPOINT + 5);
    assert ls[0] == HEADER && Unlines(ls)[0] == HEADER[0] == 'L';
    UnlinesJoins(ls, [last]);
    OneLineText(last);
  }

  lemma NotBlank(s: string)
    requires s != "" && !IsWhite(s[0])
    ensures Trim(s) != ""
  {
    BlankIff(s);
    assert s[0] in s;
  }

  lemma ValidRoundTrip(sock: string -> bool, c: Card)
    requires Lawful(sock) && ValidCard(sock, c)
    ensures Parse(sock, ToText(c)) == Ok(c)
  {
    PrintedText(sock, c);
    CardLinesNoted(sock, c);
    NotBlank(ToText(c));
    hide ToText, CardLines, LinesNoted, Lines, Trim, ValidPrint, ValidName, ValidAddress, ValidEndpoint, Distinct, Tight, Lawful;
    assert StripBom(ToText(c)) == ToText(c);
  }

  /** Printing and parsing returns the card exactly when the card is valid. */
  lemma RoundTripIffValid(sock: string -> bool, c: Card)
    requires Lawful(sock)
    ensures Parse(sock, ToText(c)) == Ok(c) <==> ValidCard(sock, c)
  {
    if ValidCard(sock, c) {
      ValidRoundTrip(sock, c);
    } else if Parse(sock, ToText(c)) == Ok(c) {
      ParsedIsValid(sock, ToText(c));
    }
  }

  /** Normal form: what was parsed from any text prints and parses back to itself. */
  lemma ParsedPrintsBack(sock: string -> bool, text: string)
    requires Lawful(sock) && Parse(sock, text).Ok?
    ensures Parse(sock, ToText(Parse(sock, text).value)) == Parse(sock, text)
  {
    ParsedIsValid(sock, text);
    ValidRoundTrip(sock, Parse(sock, text).value);
  }

  // ----- Noise -----

  /** A line the parser passes over: blank, without a colon, or with a label it does not know. */
  predicate Noise(line: string) {
    var r := Reading(line);
    r.None? || r.value.0.UnknownTag?
  }

  predicate Blank(text: string) {
    forall c | c in text :: IsWhite(c)
  }

  /**
   A noise line put between the lines of a text leaves the outcome alone, good or bad, within the limit;
   with one exception, which is exact: a blank text is no longer reported as empty once the new line
   is not blank.
   */
  lemma NoiseIsIgnored(sock: string -> bool, above: seq<string>, noise: string, below: string)
    requires (forall l <- above :: OneLine(l)) && OneLine(noise) && Noise(noise)
    requires var t, t' := Unlines(above) + below, Unlines(above) + (noise + "\n" + below);
             |t'| <= MAX_INPUT && StripBom(t) == t && StripBom(t') == t'
    ensures var t, t' := Unlines(above) + below, Unlines(above) + (noise + "\n" + below);
            Parse(sock, t') == Parse(sock, t) <==> (Blank(t) ==> Blank(noise))
  {
    var t, t' := Unlines(above) + below, Unlines(above) + (noise + "\n" + below);
    hide Reading, IsWhite, Lines, Unlines, OneLine;
    LinesOfUnlines(above, below);
    LinesOfUnlines(above, noise + "\n" + below);
    FirstLine(noise, below);
    LinesNotedJoin(sock, Nothing, above, Lines(below));
    LinesNotedJoin(sock, Nothing, above, [noise] + Lines(below));
    assert ([noise] + Lines(below))[1..] == Lines(below);
    assert LinesNoted(sock, Nothing, Lines(t')) == LinesNoted(sock, Nothing, Lines(t));
    FeedIsWhite();
    assert forall c :: c in t' <==> c in t || c in noise || c == '\n';
    SettledByBlankness(sock, t, t');
  }

  /** A text with one more line at its end; the last line so far need not have had a line feed. */
  function Continued(above: seq<string>, last: string, noise: string): string {
    Unlines(above) + if last == "" then noise else last + "\n" + noise
  }

  /** The lines of a text given by its full lines and what follows them. */
  lemma LinesToEnd(above: seq<string>, last: string)
    requires (forall l <- above :: OneLine(l)) && OneLine(last)
    ensures Lines(Unlines(above) + last) == above + if last == "" then [] else [last]
  {
    LinesOfUnlines(above, last);
    NewLineNone(last);
  }

  /** The same for a noise line after everything else, with or without a line feed before or after it. */
  lemma NoiseAtEndIsIgnored(sock: string -> bool, above: seq<string>, last: string, noise: string)
    requires (forall l <- above :: OneLine(l)) && OneLine(last) && OneLine(noise) && Noise(noise)
    requires var t, t' := Unlines(above) + last, Continued(above, last, noise);
             |t'| <= MAX_INPUT && StripBom(t) == t && StripBom(t') == t'
    ensures var t, t' := Unlines(above) + last, Continued(above, last, noise);
            Parse(sock, t') == Parse(sock, t) <==> (Blank(t) ==> Blank(noise))
  {
    var t, t' := Unlines(above) + last, Continued(above, last, noise);
    hide Reading, IsWhite, Lines, Unlines, OneLine, Parse, StripBom;
    LinesContinued(above, last, noise);
    LinesNotedJoin(sock, Nothing, Lines(t), if noise == "" then [] else [noise]);
    assert [noise][1..] == [];
    assert LinesNoted(sock, Nothing, Lines(t')) == LinesNoted(sock, Nothing, Lines(t));
    FeedIsWhite();
    assert forall c :: c in t' <==> c in t || c in noise || (c == '\n' && last != "");
    SettledByBlankness(sock, t, t');
  }

  /** A printed card is full lines and a last one. */
  lemma PrintedEnds(sock: string -> bool, c: Card) returns (ls: seq<string>, last: string)
    requires Lawful(sock) && ValidCard(sock, c)
    ensures ToText(c) == Unlines(ls) + last && ToText(c) != "" && ToText(c)[0] == 'L'
    ensures (forall l <- ls :: OneLine(l)) && OneLine(last) && last != ""
  {
    hide Lawful, ValidCard, Solid, Unlines, OneLine;
    var all := CardLines(c);
    CardLinesSolid(sock, c);
    assert all[0] == HEADER;
    TextOfLines(all);
    SolidIsOneLine(all);
    ls, last := all[..|all| - 1], all[|all| - 1];
    assert last in all && forall l <- ls :: l in all;
  }

  /** A card pasted with a signature line below it is still that card. */
  lemma SignatureIsIgnored(sock: string -> bool, c: Card, noise: string)
    requires Lawful(sock) && ValidCard(sock, c) && OneLine(noise) && Noise(noise)
    requires |ToText(c)| + 1 + |noise| <= MAX_INPUT
    ensures Parse(sock, ToText(c) + "\n" + noise) == Ok(c)
  {
    hide Lawful, ValidCard, ToText, Reading, IsWhite, Unlines, Parse, OneLine, Noise, Blank, StripBom;
    var ls, last := PrintedEnds(sock, c);
    Associates(Unlines(ls), last, "\n" + noise);
    assert Continued(ls, last, noise) == ToText(c) + "\n" + noise;
    ValidRoundTrip(sock, c);
    NotBlankText(ToText(c), "\n" + noise);
    assert ToText(c) + "\n" + noise == ToText(c) + ("\n" + noise);
    NoiseAtEndIsIgnored(sock, ls, last, noise);
  }

  lemma SolidIsOneLine(ls: seq<string>)
    requires forall l <- ls :: Solid(l)
    ensures forall l <- ls :: OneLine(l) && l != ""
  {
  }

  lemma NotBlankText(t: string, more: string)
    requires t != "" && t[0] == 'L'
    ensures !Blank(t) && StripBom(t) == t && StripBom(t + more) == t + more
  {
    assert t[0] in t && !IsWhite('L');
  }

  lemma LinesContinued(above: seq<string>, last: string, noise: string)
    requires (forall l <- above :: OneLine(l)) && OneLine(last) && OneLine(noise)
    ensures Lines(Continued(above, last, noise)) == Lines(Unlines(above) + last) + if noise == "" then [] else [noise]
  {
    hide Lines, OneLine;
    LinesToEnd(above, last);
    if last == "" {
      LinesToEnd(above, noise);
    } else {
      UnlinesJoins(above, [last]);
      OneLineText(last);
      Associates(Unlines(above), last + "\n", noise);
      LinesToEnd(above + [last], noise);
    }
  }

  lemma FeedIsWhite()
    ensures IsWhite('\n')
  {
  }

  /** With the same lines noted, outcomes differ only in whether the text counts as empty. */
  lemma SettledByBlankness(sock: string -> bool, t: string, t': string)
    requires |t| <= MAX_INPUT && |t'| <= MAX_INPUT && StripBom(t) == t && StripBom(t') == t'
    requires LinesNoted(sock, Nothing, Lines(t')) == LinesNoted(sock, Nothing, Lines(t))
    requires Blank(t') ==> Blank(t)
    ensures Parse(sock, t') == Parse(sock, t) <==> (Blank(t) ==> Blank(t'))
  {
    BlankIff(t);
    BlankIff(t');
    if Blank(t) { BlankLines(sock, t); }
    hide Trim, Lines, LinesNoted, StripBom;
  }

  /** A blank text has nothing to note. */
  lemma BlankLines(sock: string -> bool, t: string)
    requires Blank(t)
    ensures LinesNoted(sock, Nothing, Lines(t)) == Ok(Nothing)
  {
    BlankLinesFrom(sock, t);
  }

  lemma {:induction false} BlankLinesFrom(sock: string -> bool, t: string)
    requires Blank(t)
    ensures LinesNoted(sock, Nothing, Lines(t)) == Ok(Nothing)
    decreases |t|
  {
    if t != "" {
      var i := NewLine(t);
      BlankIff(t[..i]);
      if i == |t| {
        assert t[..i] == t;
      } else {
        BlankLinesFrom(sock, t[i + 1..]);
      }
    }
  }

  /** A byte-order mark in front changes nothing. */
  lemma BomIsIgnored(sock: string -> bool, text: string)
    requires StripBom(text) == text
    ensures Parse(sock, [BOM] + text) == Parse(sock, text)
  {
    assert ([BOM] + text)[1..] == text;
  }

  // ----- What the lines say -----

  /** The payloads of the lines with one of the given labels, in order. */
  function Payloads(ls: seq<string>, tags: set<Tag>): seq<string> {
    if ls == [] then [] else
    var r := Reading(ls[0]);
    (if r.Some? && r.value.0 in tags then [r.value.1] else []) + Payloads(ls[1..], tags)
  }

  function LastOr(s: seq<string>, other: Option<string>): Option<string> {
    if s == [] then other else Some(s[|s| - 1])
  }

  /** `seen` and then each value the first time it occurs. */
  function FirstOccurrences(seen: seq<string>, s: seq<string>): seq<string>
    decreases |s|
  {
    if s == [] then seen
    else FirstOccurrences(if s[0] in seen then seen else seen + [s[0]], s[1..])
  }

  lemma {:induction false} LastNameWins(sock: string -> bool, d: Draft, ls: seq<string>)
    requires LinesNoted(sock, d, ls).Ok?
    ensures LinesNoted(sock, d, ls).value.name == LastOr(Payloads(ls, {NameTag}), d.name)
    decreases |ls|
  {
    hide Reading, ValidEndpoint, ValidAddress;
    if ls != [] {
      LastNameWins(sock, LineNoted(sock, d, ls[0]).value, ls[1..]);
    }
  }

  lemma {:induction false} LastExitWins(sock: string -> bool, d: Draft, ls: seq<string>)
    requires LinesNoted(sock, d, ls).Ok?
    ensures LinesNoted(sock, d, ls).value.exit == LastOr(Payloads(ls, {ExitTag}), d.exit)
    decreases |ls|
  {
    hide Reading, ValidEndpoint, ValidAddress;
    if ls != [] {
      LastExitWins(sock, LineNoted(sock, d, ls[0]).value, ls[1..]);
    }
  }

  lemma {:induction false} LastRelayWins(sock: string -> bool, d: Draft, ls: seq<string>)
    requires LinesNoted(sock, d, ls).Ok?
    ensures LinesNoted(sock, d, ls).value.relay == LastOr(Payloads(ls, {RelayTag}), d.relay)
    decreases |ls|
  {
    hide Reading, ValidEndpoint, ValidAddress;
    if ls != [] {
      LastRelayWins(sock, LineNoted(sock, d, ls[0]).value, ls[1..]);
    }
  }

  lemma {:induction false} LastPrintWins(sock: string -> bool, d: Draft, ls: seq<string>)
    requires LinesNoted(sock, d, ls).Ok?
    ensures var last := LastOr(Payloads(ls, {PrintTag}), None);
            LinesNoted(sock, d, ls).value.fingerprint == if last.Some? then Some(Lower(last.value)) else d.fingerprint
    decreases |ls|
  {
    hide Reading, ValidEndpoint, ValidAddress, Lower;
    if ls != [] {
      LastPrintWins(sock, LineNoted(sock, d, ls[0]).value, ls[1..]);
    }
  }

  /** Lower-casing changes the capital letters of ASCII and nothing else. */
  lemma {:induction false} LowerMeans(s: string, k: nat)
    requires k < |s|
    ensures |Lower(s)| == |s|
    ensures Lower(s)[k] as int == s[k] as int + if 65 <= s[k] as int <= 90 then 32 else 0
  {
    LowerLength(s);
    if k > 0 {
      LowerMeans(s[1..], k - 1);
    }
  }

  lemma {:induction false} LowerLength(s: string)
    ensures |Lower(s)| == |s|
  {
    if s != "" {
      LowerLength(s[1..]);
    }
  }

  /** A fingerprint may be pasted in either case. */
  lemma PrintInEitherCase(s: string)
    ensures ValidPrint(Lower(s)) <==>
            |s| == 64 && forall c <- s :: '0' <= c <= '9' || 'a' <= c <= 'f' || 'A' <= c <= 'F'
  {
    LowerLength(s);
    var l := Lower(s);
    forall k | 0 <= k < |s|
      ensures IsLowerHex(l[k]) <==> '0' <= s[k] <= '9' || 'a' <= s[k] <= 'f' || 'A' <= s[k] <= 'F'
    {
      LowerMeans(s, k);
    }
    forall k | 0 <= k < |s| ensures l[k] in l && s[k] in s {
    }
    if ValidPrint(l) {
      forall c | c in s ensures '0' <= c <= '9' || 'a' <= c <= 'f' || 'A' <= c <= 'F' {
        var k :| 0 <= k < |s| && s[k] == c;
        assert l[k] in l;
      }
    }
  }

  lemma {:induction false} FirstAddressesStay(sock: string -> bool, d: Draft, ls: seq<string>)
    requires LinesNoted(sock, d, ls).Ok?
    ensures LinesNoted(sock, d, ls).value.addresses == FirstOccurrences(d.addresses, Payloads(ls, {AddressTag}))
    decreases |ls|
  {
    hide Reading, ValidEndpoint, ValidAddress;
    if ls != [] {
      var rest := Payloads(ls[1..], {AddressTag});
      FirstAddressesStay(sock, LineNoted(sock, d, ls[0]).value, ls[1..]);
      var r := Reading(ls[0]);
      if r.Some? && r.value.0.AddressTag? {
        assert Payloads(ls, {AddressTag}) == [r.value.1] + rest;
        assert ([r.value.1] + rest)[1..] == rest;
      } else {
        assert Payloads(ls, {AddressTag}) == [] + rest && [] + rest == rest;
      }
    }
  }

  /** Nothing recognised gets by unchecked: an address or endpoint line that is not valid fails the parse. */
  lemma {:induction false} FailsClosed(sock: string -> bool, d: Draft, ls: seq<string>)
    requires LinesNoted(sock, d, ls).Ok?
    ensures forall a <- Payloads(ls, {AddressTag}) :: ValidAddress(sock, a)
    ensures forall e <- Payloads(ls, {ExitTag, RelayTag}) :: ValidEndpoint(e)
    decreases |ls|
  {
    hide Reading, ValidEndpoint, ValidAddress;
    if ls != [] {
      FailsClosed(sock, LineNoted(sock, d, ls[0]).value, ls[1..]);
    }
  }

  /** A parsed card in terms of the lines of its text. */
  lemma ParsedMeans(sock: string -> bool, text: string)
    requires Parse(sock, text).Ok?
    ensures var c := Parse(sock, text).value; var ls := Lines(StripBom(text));
            && LastOr(Payloads(ls, {NameTag}), None) == Some(c.name)
            && Payloads(ls, {PrintTag}) != [] && Lower(LastOr(Payloads(ls, {PrintTag}), None).value) == c.fingerprint
            && LastOr(Payloads(ls, {ExitTag}), None) == c.exit
            && LastOr(Payloads(ls, {RelayTag}), None) == c.relay
            && FirstOccurrences([], Payloads(ls, {AddressTag})) == c.addresses
            && (forall a <- Payloads(ls, {AddressTag}) :: ValidAddress(sock, a))
            && (forall e <- Payloads(ls, {ExitTag, RelayTag}) :: ValidEndpoint(e))
  {
    hide Reading, Lines, LinesNoted, ValidName, ValidPrint, Trim, Lower;
    var ls := Lines(StripBom(text));
    LastNameWins(sock, Nothing, ls);
    LastPrintWins(sock, Nothing, ls);
    LastExitWins(sock, Nothing, ls);
    LastRelayWins(sock, Nothing, ls);
    FirstAddressesStay(sock, Nothing, ls);
    FailsClosed(sock, Nothing, ls);
  }

  /** The first error of the lines, if any, comes before all checks on the whole. */
  lemma {:induction false} LinesOkIff(sock: string -> bool, d: Draft, ls: seq<string>)
    ensures LinesNoted(sock, d, ls).Ok? <==>
            && (forall a <- Payloads(ls, {AddressTag}) :: ValidAddress(sock, a))
            && (forall e <- Payloads(ls, {ExitTag, RelayTag}) :: ValidEndpoint(e))
            && RoomFor(d.addresses, Payloads(ls, {AddressTag}))
    decreases |ls|
  {
    hide Reading, ValidEndpoint, ValidAddress, Lower;
    if ls != [] {
      var r := Reading(ls[0]);
      var n := LineNoted(sock, d, ls[0]);
      var rest := Payloads(ls[1..], {AddressTag});
      if r.Some? && r.value.0.AddressTag? {
        assert Payloads(ls, {AddressTag}) == [r.value.1] + rest && ([r.value.1] + rest)[1..] == rest;
      } else {
        assert Payloads(ls, {AddressTag}) == [] + rest && [] + rest == rest;
      }
      if n.Ok? {
        LinesOkIff(sock, n.value, ls[1..]);
      }
    }
  }

  /** No address line comes when sixteen different ones are there already. */
  predicate RoomFor(seen: seq<string>, addresses: seq<string>)
    decreases |addresses|
  {
    addresses == [] ||
    (|seen| < 16 && RoomFor(if addresses[0] in seen then seen else seen + [addresses[0]], addresses[1..]))
  }

  /** What is reported of a text whose lines are all in order, by the first of these to hold. */
  lemma RefusedBecause(sock: string -> bool, text: string)
    requires |StripBom(text)| <= 8192 && LinesNoted(sock, Nothing, Lines(StripBom(text))).Ok?
    ensures var ls := Lines(StripBom(text));
            var name, mark := LastOr(Payloads(ls, {NameTag}), None), LastOr(Payloads(ls, {PrintTag}), None);
            var addresses := Payloads(ls, {AddressTag});
            var r := Parse(sock, text);
            && (Blank(StripBom(text)) ==> r == Err(Empty))
            && (!Blank(StripBom(text)) ==>
                && (name.None? || name.value == "" <==> r == Err(MissingField(NameTag)))
                && (name.Some? && name.value != "" ==>
                    && (!ValidName(name.value) <==> r == Err(BadName))
                    && (ValidName(name.value) ==>
                        && (mark.None? <==> r == Err(MissingField(PrintTag)))
                        && (mark.Some? && !ValidPrint(Lower(mark.value)) <==> r == Err(BadFingerprint))
                        && (mark.Some? && ValidPrint(Lower(mark.value)) ==>
                            && (addresses == [] <==> r == Err(MissingField(AddressTag)))
                            && (addresses != [] <==> r.Ok?)))))
  {
    var t := StripBom(text);
    var ls := Lines(t);
    BlankIff(t);
    LastNameWins(sock, Nothing, ls);
    LastPrintWins(sock, Nothing, ls);
    FirstAddressesStay(sock, Nothing, ls);
    OccurrencesStay([], Payloads(ls, {AddressTag}));
    hide Reading, Lines, LinesNoted, ValidName, ValidPrint, Trim, Lower, Payloads, IsWhite;
  }

  lemma {:induction false} OccurrencesStay(seen: seq<string>, s: seq<string>)
    ensures FirstOccurrences(seen, s) == [] <==> seen == [] && s == []
    decreases |s|
  {
    if s != [] {
      OccurrencesStay(if s[0] in seen then seen else seen + [s[0]], s[1..]);
    }
  }
}
