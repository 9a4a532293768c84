/** The text of the `.ceylon_network` file: how an agent's configuration is printed into it and
    read back from it. */
module NetworkFile {
  import opened Common

  const WORKSPACE_ID := "WORKSPACE_ID"
  const WORKSPACE_PEER := "WORKSPACE_PEER"
  const WORKSPACE_PORT := "WORKSPACE_PORT"
  const WORKSPACE_IP := "WORKSPACE_IP"
  const LOCALHOST := "127.0.0.1"

  type U16 = n: nat | n < 0x1_0000

  // ----- lines and pairs -----

  /** The first position of a character, or the length of the text. */
  function Find(s: string, c: char): (k: nat)
    ensures k <= |s| && c !in s[..k] && (k < |s| ==> s[k] == c)
  {
    if s == "" || s[0] == c then 0 else 1 + Find(s[1..], c)
  }

  lemma {:induction false} FindAt(before: string, c: char, after: string)
    requires c !in before
    ensures Find(before + [c] + after, c) == |before|
  {
    var s := before + [c] + after;
    if before != "" {
      FindAt(before[1..], c, after);
      assert s[1..] == before[1..] + [c] + after;
    }
  }

  function StripCr(line: string): string {
    if line != "" && line[|line| - 1] == '\r' then line[..|line| - 1] else line
  }

  /** The lines of a text: a line feed ends a line, and a carriage return before it belongs to the ending. */
  function Lines(text: string): seq<string>
    decreases |text|
  {
    if text == "" then []
    else
      var k := Find(text, '\n');
      if k == |text| then [text] else [StripCr(text[..k])] + Lines(text[k + 1..])
  }

  function Join(parts: seq<string>): string {
    if parts == [] then ""
    else if |parts| == 1 then parts[0]
    else parts[0] + "\n" + Join(parts[1..])
  }

  datatype Pair = Pair(key: string, value: string) {
    function Text(): string {
      key + "=" + value
    }
  }

  /** A line is split at its first equals sign; a line without one is skipped. */
  function SplitOnce(line: string): Option<Pair> {
    var k := Find(line, '=');
    if k == |line| then None else Some(Pair(line[..k], line[k + 1..]))
  }

  /** Of several lines with the same key the last one counts. */
  function Collect(lines: seq<string>): map<string, string> {
    if lines == [] then map[]
    else
      var earlier := Collect(lines[..|lines| - 1]);
      match SplitOnce(lines[|lines| - 1])
      case None => earlier
      case Some(p) => earlier[p.key := p.value]
  }

  function Texts(order: seq<Pair>): seq<string> {
    if order == [] then [] else [order[0].Text()] + Texts(order[1..])
  }

  function Print(order: seq<Pair>): string {
    Join(Texts(order))
  }

  lemma PrintFour(order: seq<Pair>)
    requires |order| == 4
    ensures Print(order)
         == order[0].Text() + "\n" + (order[1].Text() + "\n" + (order[2].Text() + "\n" + order[3].Text()))
  {
    assert Texts(order[3..]) == [order[3].Text()];
    TextsFirst(order, 2);
    TextsFirst(order, 1);
    TextsFirst(order, 0);
  }

  lemma TextsFirst(order: seq<Pair>, k: nat)
    requires k + 1 < |order|
    ensures Print(order[k..]) == order[k].Text() + "\n" + Print(order[k + 1..])
    ensures k == 0 ==> order[k..] == order
  {
    var rest := order[k + 1..];
    assert order[k..][1..] == rest;
    assert Texts(order[k..]) == [order[k].Text()] + Texts(rest);
    assert Texts(rest) != [];
    assert Texts(order[k..])[1..] == Texts(rest);
  }

  // ----- what a text says about a key -----

  /** The text from i to j is a line of its own. */
  ghost predicate IsLine(text: string, i: int, j: int) {
    && 0 <= i <= j <= |text| && '\n' !in text[i..j]
    && (i == 0 || text[i - 1] == '\n')
    && (j == |text| || text[j] == '\n')
  }

  /** It is a line that sets the key. */
  ghost predicate Sets(text: string, key: string, i: int, j: int) {
    IsLine(text, i, j) && key + "=" <= text[i..j]
  }

  /** What it sets the key to: all that follows the equals sign, except for the carriage return of a line ending. */
  ghost function Setting(text: string, key: string, i: int, j: int): string
    requires Sets(text, key, i, j)
  {
    var rest := text[i + |key| + 1..j];
    if j < |text| && rest != "" && rest[|rest| - 1] == '\r' then rest[..|rest| - 1] else rest
  }

  /** No later line does. */
  ghost predicate SetsLast(text: string, key: string, i: int, j: int) {
    Sets(text, key, i, j) && forall k, l :: Sets(text, key, k, l) ==> k <= i
  }

  /** What the last line that sets the key sets it to, if there is such a line. */
  ghost predicate Says(text: string, key: string, value: Option<string>) {
    match value
    case None => forall i, j :: !Sets(text, key, i, j)
    case Some(v) => exists i, j :: SetsLast(text, key, i, j) && v == Setting(text, key, i, j)
  }

  function Lookup(config: map<string, string>, key: string): Option<string> {
    if key in config then Some(config[key]) else None
  }

  /** A first line counts only for the keys that the others do not set. */
  lemma {:induction false} CollectFirst(first: string, rest: seq<string>, key: string)
    ensures Lookup(Collect([first] + rest), key)
         == if key in Collect(rest) then Lookup(Collect(rest), key) else Lookup(Collect([first]), key)
  {
    if rest == [] {
      assert [first] + rest == [first];
    } else {
      var init, last := rest[..|rest| - 1], rest[|rest| - 1];
      CollectFirst(first, init, key);
      assert ([first] + rest)[..|rest|] == [first] + init && ([first] + rest)[|rest|] == last;
    }
  }

  /** A line sets a key if the key and an equals sign are how it starts. */
  lemma OneLine(line: string, key: string)
    requires '=' !in key
    ensures Lookup(Collect([line]), key) == if key + "=" <= line then Some(line[|key| + 1..]) else None
  {
    var k := Find(line, '=');
    assert [line][..0] == [];
    if key + "=" <= line {
      FindAt(key, '=', line[|key| + 1..]);
      assert line == key + ['='] + line[|key| + 1..] && line[..|key|] == key;
    }
    if k < |line| && line[..k] == key {
      assert line[..k + 1] == key + "=";
    }
  }

  /** The first line of a text that goes on after it. */
  lemma FirstLineSays(text: string, key: string, k: nat)
    requires '=' !in key && '\r' !in key && k < |text| && '\n' !in text[..k] && text[k] == '\n'
    ensures Sets(text, key, 0, k) <==> key + "=" <= StripCr(text[..k])
    ensures Sets(text, key, 0, k) ==> Setting(text, key, 0, k) == StripCr(text[..k])[|key| + 1..]
  {
    var line, prefix := text[..k], key + "=";
    if prefix <= line {
      assert line[..|prefix|] == prefix && line[|prefix| - 1] == '=';
      assert prefix <= StripCr(line);
    }
  }

  lemma NoneBefore(text: string, c: char, k: nat)
    requires k <= |text| && c !in text[..k]
    ensures forall m :: 0 <= m < k ==> text[m] != c
  {
    forall m | 0 <= m < k
      ensures text[m] != c
    {
      assert text[..k][m] == text[m];
    }
  }

  /** A line that starts later starts after the line feed. */
  lemma LaterLine(text: string, k: nat, i: int, j: int)
    requires k < |text| && '\n' !in text[..k] && text[k] == '\n' && i > 0 && IsLine(text, i, j)
    ensures i > k
  {
    NoneBefore(text, '\n', k);
  }

  /** The lines after the first one are those of the remaining text. */
  lemma OtherLines(text: string, key: string, k: nat, i: int, j: int)
    requires k < |text| && '\n' !in text[..k] && text[k] == '\n' && i > 0
    ensures Sets(text, key, i, j) <==> Sets(text[k + 1..], key, i - k - 1, j - k - 1)
    ensures Sets(text, key, i, j) ==> Setting(text, key, i, j) == Setting(text[k + 1..], key, i - k - 1, j - k - 1)
  {
    var tail := text[k + 1..];
    if IsLine(text, i, j) {
      LaterLine(text, k, i, j);
    }
    if k < i <= j <= |text| {
      assert text[i..j] == tail[i - k - 1..j - k - 1];
      assert i > k + 1 ==> text[i - 1] == tail[i - k - 2];
      assert j < |text| ==> text[j] == tail[j - k - 1];
      assert IsLine(text, i, j) <==> IsLine(tail, i - k - 1, j - k - 1);
      if Sets(text, key, i, j) {
        assert text[i + |key| + 1..j] == tail[i - k - 1 + |key| + 1..j - k - 1];
      }
    }
  }

  lemma LoneLine(text: string, key: string, i: int, j: int)
    requires '\n' !in text && text != ""
    ensures Sets(text, key, i, j) <==> i == 0 && j == |text| && key + "=" <= text
  {
    if IsLine(text, i, j) {
      assert i == 0 && j == |text|;
    }
    assert text[0..|text|] == text;
  }

  lemma LoneLineSays(text: string, key: string)
    requires '=' !in key && '\n' !in text && text != ""
    ensures Says(text, key, Lookup(Collect([text]), key))
  {
    OneLine(text, key);
    forall i, j
      ensures Sets(text, key, i, j) <==> i == 0 && j == |text| && key + "=" <= text
    {
      LoneLine(text, key, i, j);
    }
    if key + "=" <= text {
      assert SetsLast(text, key, 0, |text|);
    }
  }

  lemma SettingMoves(text: string, key: string, k: nat, i: int, j: int)
    requires k < |text| && '\n' !in text[..k] && text[k] == '\n' && SetsLast(text[k + 1..], key, i, j)
    ensures SetsLast(text, key, i + k + 1, j + k + 1)
    ensures Setting(text, key, i + k + 1, j + k + 1) == Setting(text[k + 1..], key, i, j)
  {
    OtherLines(text, key, k, i + k + 1, j + k + 1);
    forall m, l | Sets(text, key, m, l)
      ensures m <= i + k + 1
    {
      if m > 0 {
        OtherLines(text, key, k, m, l);
      }
    }
  }

  /** A setting of the remaining text comes later. */
  lemma LaterLineSays(text: string, key: string, k: nat, value: Option<string>)
    requires k < |text| && '\n' !in text[..k] && text[k] == '\n'
    requires value.Some? && Says(text[k + 1..], key, value)
    ensures Says(text, key, value)
  {
    var tail := text[k + 1..];
    var i, j :| SetsLast(tail, key, i, j) && value.value == Setting(tail, key, i, j);
    SettingMoves(text, key, k, i, j);
  }

  /** If the remaining text does not set the key, the first line decides. */
  lemma EarlierLineSays(text: string, key: string, k: nat)
    requires '=' !in key && '\r' !in key && k < |text| && '\n' !in text[..k] && text[k] == '\n'
    requires Says(text[k + 1..], key, None)
    ensures Says(text, key, Lookup(Collect([StripCr(text[..k])]), key))
  {
    OneLine(StripCr(text[..k]), key);
    FirstLineSays(text, key, k);
    forall i, j | Sets(text, key, i, j)
      ensures i == 0 && j == k
    {
      if i > 0 {
        OtherLines(text, key, k, i, j);
      } else {
        NoneBefore(text, '\n', k);
        NoneBefore(text, '\n', j);
      }
    }
    assert Sets(text, key, 0, k) ==> SetsLast(text, key, 0, k);
  }

  /** Splitting into lines and collecting the pairs yields what the text says about each key. */
  lemma {:induction false} CollectSays(text: string, key: string)
    requires '=' !in key && '\r' !in key
    ensures Says(text, key, Lookup(Collect(Lines(text)), key))
    decreases |text|
  {
    if text == "" {
      assert Collect(Lines(text)) == map[];
    } else {
      var k := Find(text, '\n');
      if k == |text| {
        assert text[..k] == text;
        LoneLineSays(text, key);
      } else {
        var first, rest := StripCr(text[..k]), Lines(text[k + 1..]);
        CollectSays(text[k + 1..], key);
        CollectFirst(first, rest, key);
        if key in Collect(rest) {
          LaterLineSays(text, key, k, Lookup(Collect(rest), key));
        } else {
          EarlierLineSays(text, key, k);
        }
      }
    }
  }

  // ----- decimal ports -----

  function Digit(n: nat): char
    requires n < 10
  {
    "0123456789"[n]
  }

  function Decimal(n: nat): string {
    if n < 10 then [Digit(n)] else Decimal(n / 10) + [Digit(n % 10)]
  }

  /** The value of a string of digits, unless it exceeds the range on the way. */
  function ParseDigits(s: string): Option<U16> {
    if s == "" then Some(0)
    else
      var c := s[|s| - 1];
      match ParseDigits(s[..|s| - 1])
      case None => None
      case Some(v) =>
        if '0' <= c <= '9' && v * 10 + (c as int - '0' as int) < 0x1_0000 then Some(v * 10 + (c as int - '0' as int))
        else None
  }

  /** A port may carry a plus sign; an empty text, other characters and larger numbers are errors. */
  function ParseU16(s: string): Option<U16> {
    var digits := if |s| > 1 && s[0] == '+' then s[1..] else s;
    if digits == "" then None else ParseDigits(digits)
  }

  ghost predicate AllDigits(s: string) {
    forall i :: 0 <= i < |s| ==> '0' <= s[i] <= '9'
  }

  /** The number a string of digits stands for. */
  function NumberOf(s: string): int {
    if s == "" then 0 else NumberOf(s[..|s| - 1]) * 10 + (s[|s| - 1] as int - '0' as int)
  }

  lemma {:induction false} NumberIsNatural(s: string)
    requires AllDigits(s)
    ensures NumberOf(s) >= 0
  {
    if s != "" {
      NumberIsNatural(s[..|s| - 1]);
    }
  }

  /** Parsing succeeds exactly on digits that stand for a 16-bit number, and yields that number. */
  lemma {:induction false} ParseDigitsIff(s: string)
    ensures ParseDigits(s) == if AllDigits(s) && NumberOf(s) < 0x1_0000 then Some(NumberOf(s)) else None
  {
    if s != "" {
      var init := s[..|s| - 1];
      ParseDigitsIff(init);
      if AllDigits(init) {
        NumberIsNatural(init);
      }
      assert AllDigits(s) <==> AllDigits(init) && '0' <= s[|s| - 1] <= '9';
    }
  }

  lemma {:induction false} DecimalParses(n: U16)
    ensures ParseDigits(Decimal(n)) == Some(n) && Decimal(n) != ""
    ensures forall c :: c in Decimal(n) ==> '0' <= c <= '9'
  {
    if n >= 10 {
      DecimalParses(n / 10);
      var s := Decimal(n);
      assert s[..|s| - 1] == Decimal(n / 10);
    } else {
      assert Decimal(n)[..0] == "";
    }
  }

  /** Every 16-bit port reads back as itself. */
  lemma PortRoundTrip(n: U16)
    ensures ParseU16(Decimal(n)) == Some(n)
    ensures AllDigits(Decimal(n)) && (n > 0 ==> Decimal(n)[0] != '0')
  {
    DecimalParses(n);
    assert Decimal(n)[0] in Decimal(n);
  }

  /** What becomes of a port given as text: the number that digits, a plus sign allowed before them, stand for,
      if it is one of 16 bits. */
  ghost predicate ReadsAs(value: string, port: Option<U16>) {
    var digits := if |value| > 1 && value[0] == '+' then value[1..] else value;
    port == if digits != "" && AllDigits(digits) && NumberOf(digits) < 0x1_0000 then Some(NumberOf(digits)) else None
  }

  lemma ParseReads(value: string)
    ensures ReadsAs(value, ParseU16(value))
  {
    ParseDigitsIff(if |value| > 1 && value[0] == '+' then value[1..] else value);
  }

  /** A setting after a text was read: what the text says, or what it was if the text says nothing. */
  ghost predicate Updated(text: string, key: string, before: Option<string>, after: Option<string>) {
    exists v :: Says(text, key, v) && after == if v.Some? then v else before
  }

  ghost predicate PortUpdated(text: string, key: string, before: Option<U16>, after: Option<U16>) {
    exists v :: Says(text, key, v) && if v.Some? then ReadsAs(v.value, after) else after == before
  }

  lemma CollectUpdates(text: string, key: string, before: Option<string>)
    requires '=' !in key && '\r' !in key
    ensures var config := Collect(Lines(text));
      Updated(text, key, before, if key in config then Some(config[key]) else before)
  {
    CollectSays(text, key);
  }

  lemma CollectUpdatesPort(text: string, key: string, before: Option<U16>)
    requires '=' !in key && '\r' !in key
    ensures var config := Collect(Lines(text));
      PortUpdated(text, key, before, if key in config then ParseU16(config[key]) else before)
  {
    CollectSays(text, key);
    var config := Collect(Lines(text));
    if key in config {
      ParseReads(config[key]);
    }
  }

  // ----- the configuration -----

  datatype PeerMode = Admin | Client

  datatype Settings = Settings(
    name: string, mode: PeerMode, role: Option<string>, workSpaceId: Option<string>, port: Option<U16>,
    adminPeer: Option<string>, adminIp: Option<string>, bufferSize: Option<U16>)
  {
    /** Printing needs a workspace, an administrator and a port; otherwise it panics. */
    predicate Printable() {
      workSpaceId.Some? && adminPeer.Some? && port.Some?
    }

    function Ip(): string {
      if adminIp.Some? then adminIp.value else LOCALHOST
    }

    function Pairs(): seq<Pair>
      requires Printable()
    {
      [Pair(WORKSPACE_ID, workSpaceId.value), Pair(WORKSPACE_PEER, adminPeer.value),
       Pair(WORKSPACE_PORT, Decimal(port.value)), Pair(WORKSPACE_IP, Ip())]
    }

    function Loaded(text: string): Settings {
      var config := Collect(Lines(text));
      this.(workSpaceId := if WORKSPACE_ID in config then Some(config[WORKSPACE_ID]) else workSpaceId,
            adminPeer := if WORKSPACE_PEER in config then Some(config[WORKSPACE_PEER]) else adminPeer,
            port := if WORKSPACE_PORT in config then ParseU16(config[WORKSPACE_PORT]) else port,
            adminIp := if WORKSPACE_IP in config then Some(config[WORKSPACE_IP]) else adminIp)
    }
  }

  const DEFAULT := Settings("", Client, None, None, None, None, None, None)

  /** The text holds the four settings in the order of the shuffle, one on each line. */
  ghost predicate IsPrinted(text: string, id: string, peer: string, port: string, ip: string, shuffle: seq<nat>)
    requires IsShuffle(shuffle)
  {
    var lines := ["WORKSPACE_ID=" + id, "WORKSPACE_PEER=" + peer, "WORKSPACE_PORT=" + port, "WORKSPACE_IP=" + ip];
    text == lines[shuffle[0]] + "\n" +
            (lines[shuffle[1]] + "\n" + (lines[shuffle[2]] + "\n" + lines[shuffle[3]]))
  }

  lemma PairTexts(value: string)
    ensures Pair(WORKSPACE_ID, value).Text() == "WORKSPACE_ID=" + value
    ensures Pair(WORKSPACE_PEER, value).Text() == "WORKSPACE_PEER=" + value
    ensures Pair(WORKSPACE_PORT, value).Text() == "WORKSPACE_PORT=" + value
    ensures Pair(WORKSPACE_IP, value).Text() == "WORKSPACE_IP=" + value
  {
    assert WORKSPACE_ID + "=" == "WORKSPACE_ID=" && WORKSPACE_PEER + "=" == "WORKSPACE_PEER=";
    assert WORKSPACE_PORT + "=" == "WORKSPACE_PORT=" && WORKSPACE_IP + "=" == "WORKSPACE_IP=";
  }

  lemma FourArePrinted(id: string, peer: string, port: string, ip: string, shuffle: seq<nat>)
    requires IsShuffle(shuffle)
    ensures var pairs := [Pair(WORKSPACE_ID, id), Pair(WORKSPACE_PEER, peer), Pair(WORKSPACE_PORT, port),
                          Pair(WORKSPACE_IP, ip)];
      IsPrinted(Print(Shuffled(pairs, shuffle)), id, peer, port, ip, shuffle)
  {
    var pairs := [Pair(WORKSPACE_ID, id), Pair(WORKSPACE_PEER, peer), Pair(WORKSPACE_PORT, port),
                  Pair(WORKSPACE_IP, ip)];
    var lines := [pairs[0].Text(), pairs[1].Text(), pairs[2].Text(), pairs[3].Text()];
    PrintFour(Shuffled(pairs, shuffle));
    PairTexts(id);
    PairTexts(peer);
    PairTexts(port);
    PairTexts(ip);
    assert forall i :: 0 <= i < 4 ==> pairs[i].Text() == lines[i];
  }

  /** Loading leaves every setting as the text says. */
  lemma LoadedUpdates(s: Settings, text: string)
    ensures Updated(text, "WORKSPACE_ID", s.workSpaceId, s.Loaded(text).workSpaceId)
    ensures Updated(text, "WORKSPACE_PEER", s.adminPeer, s.Loaded(text).adminPeer)
    ensures Updated(text, "WORKSPACE_IP", s.adminIp, s.Loaded(text).adminIp)
    ensures PortUpdated(text, "WORKSPACE_PORT", s.port, s.Loaded(text).port)
  {
    CollectUpdates(text, WORKSPACE_ID, s.workSpaceId);
    CollectUpdates(text, WORKSPACE_PEER, s.adminPeer);
    CollectUpdates(text, WORKSPACE_IP, s.adminIp);
    CollectUpdatesPort(text, WORKSPACE_PORT, s.port);
  }

  class UnifiedAgentConfig {
    var name: string
    var mode: PeerMode
    var role: Option<string>
    var workSpaceId: Option<string>
    var port: Option<U16>
    var adminPeer: Option<string>
    var adminIp: Option<string>
    var bufferSize: Option<U16>

    constructor ()
      ensures Value() == DEFAULT
    {
      name, mode, role, workSpaceId := "", Client, None, None;
      port, adminPeer, adminIp, bufferSize := None, None, None, None;
    }

    ghost function Value(): Settings
      reads this
    {
      Settings(name, mode, role, workSpaceId, port, adminPeer, adminIp, bufferSize)
    }

    /** The content is absent when the file cannot be read. */
    method UpdateFromFile(content: Option<string>) returns (ok: bool)
      modifies this
      ensures ok == content.Some?
      ensures content.None? ==> Value() == old(Value())
      ensures content.Some? ==> Updated(content.value, "WORKSPACE_ID", old(workSpaceId), workSpaceId)
      ensures content.Some? ==> Updated(content.value, "WORKSPACE_PEER", old(adminPeer), adminPeer)
      ensures content.Some? ==> Updated(content.value, "WORKSPACE_IP", old(adminIp), adminIp)
      ensures content.Some? ==> PortUpdated(content.value, "WORKSPACE_PORT", old(port), port)
      ensures (name, mode, role, bufferSize) == old((name, mode, role, bufferSize))
      ensures Value() == if content.Some? then old(Value()).Loaded(content.value) else old(Value())
    {
      if content.None? {
        return false;
      }
      var config := Collect(Lines(content.value));
      LoadedUpdates(Value(), content.value);
      if WORKSPACE_ID in config {
        workSpaceId := Some(config[WORKSPACE_ID]);
      }
      if WORKSPACE_PEER in config {
        adminPeer := Some(config[WORKSPACE_PEER]);
      }
      if WORKSPACE_PORT in config {
        port := ParseU16(config[WORKSPACE_PORT]);
      }
      if WORKSPACE_IP in config {
        adminIp := Some(config[WORKSPACE_IP]);
      }
      return true;
    }

    method CopyWith(conf: Settings)
      modifies this
      ensures Value() == conf
    {
      name, mode, role, workSpaceId := conf.name, conf.mode, conf.role, conf.workSpaceId;
      port, adminPeer, adminIp, bufferSize := conf.port, conf.adminPeer, conf.adminIp, conf.bufferSize;
    }

    /** The map of the four settings comes out in an arbitrary order, given here as a shuffle. */
    method WriteToFile(shuffle: seq<nat>) returns (text: Option<string>)
      requires IsShuffle(shuffle)
      ensures text.Some? <==> workSpaceId.Some? && adminPeer.Some? && port.Some?
      ensures text.Some? ==> IsPrinted(text.value, workSpaceId.value, adminPeer.value, Decimal(port.value),
                                       if adminIp.Some? then adminIp.value else "127.0.0.1", shuffle)
      ensures text == if Value().Printable() then Some(Print(Shuffled(Value().Pairs(), shuffle))) else None
    {
      if workSpaceId.None? || adminPeer.None? || port.None? {
        return None;
      }
      var ip := if adminIp.Some? then adminIp.value else LOCALHOST;
      var pairs := [Pair(WORKSPACE_ID, workSpaceId.value), Pair(WORKSPACE_PEER, adminPeer.value),
                    Pair(WORKSPACE_PORT, Decimal(port.value)), Pair(WORKSPACE_IP, ip)];
      FourArePrinted(workSpaceId.value, adminPeer.value, Decimal(port.value), ip, shuffle);
      return Some(Print(Shuffled(pairs, shuffle)));
    }
  }

  /** A new agent takes over the given settings; an administrator records its own id and writes the file. */
  method NewAgent(config: Option<Settings>, id: string, shuffle: seq<nat>)
    returns (conf: UnifiedAgentConfig, written: Option<string>)
    requires IsShuffle(shuffle)
    ensures fresh(conf)
    ensures var given := if config.Some? then config.value else DEFAULT;
      if given.mode.Admin? then
        && conf.Value() == given.(adminPeer := Some(id))
        && (written.Some? <==> given.workSpaceId.Some? && given.port.Some?)
        && (written.Some? ==> IsPrinted(written.value, given.workSpaceId.value, id, Decimal(given.port.value),
                                        if given.adminIp.Some? then given.adminIp.value else "127.0.0.1", shuffle))
      else
        conf.Value() == given && written == None
  {
    conf := new UnifiedAgentConfig();
    if config.Some? {
      conf.CopyWith(config.value);
    }
    written := None;
    if conf.mode == Admin {
      conf.adminPeer := Some(id);
      written := conf.WriteToFile(shuffle);
    }
  }

  // ----- orders of the four pairs -----

  predicate IsShuffle(shuffle: seq<nat>) {
    && |shuffle| == 4
    && (forall i :: 0 <= i < 4 ==> shuffle[i] < 4)
    && (forall i, j :: 0 <= i < j < 4 ==> shuffle[i] != shuffle[j])
  }

  function Shuffled(pairs: seq<Pair>, shuffle: seq<nat>): seq<Pair>
    requires |pairs| == 4 && IsShuffle(shuffle)
  {
    [pairs[shuffle[0]], pairs[shuffle[1]], pairs[shuffle[2]], pairs[shuffle[3]]]
  }
}
