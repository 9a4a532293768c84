/** The configuration round trip: exactly which settings survive being printed and read back. */
module NetworkFileRoundTrip {
  import opened Common
  import opened NetworkFile

  predicate EndsInCr(s: string) {
    s != "" && s[|s| - 1] == '\r'
  }

  /** A value that reads back unchanged from any line of the file. */
  predicate Clean(value: string) {
    '\n' !in value && !EndsInCr(value)
  }

  /** What reading makes of the printed pairs: every line but the last loses a final carriage return. */
  function Arrived(order: seq<Pair>): seq<Pair> {
    if |order| <= 1 then order
    else [order[0].(value := StripCr(order[0].value))] + Arrived(order[1..])
  }

  /** Reading the text restores the four printed settings, whatever configuration they are loaded into. */
  ghost predicate Restores(s: Settings, text: string) {
    forall target: Settings :: target.Loaded(text)
      == target.(workSpaceId := s.workSpaceId, adminPeer := s.adminPeer, port := s.port, adminIp := Some(s.Ip()))
  }

  /** No printed value contains a line feed, and none but the last ends in a carriage return. */
  ghost predicate CleanOrder(order: seq<Pair>) {
    forall i :: 0 <= i < |order| ==> '\n' !in order[i].value && (i < |order| - 1 ==> !EndsInCr(order[i].value))
  }

  // ----- splitting lines and pairs -----

  lemma PairSplits(p: Pair)
    requires '=' !in p.key
    ensures SplitOnce(p.Text()) == Some(p)
  {
    FindAt(p.key, '=', p.value);
    assert p.Text() == p.key + ['='] + p.value;
    assert p.Text()[..|p.key|] == p.key && p.Text()[|p.key| + 1..] == p.value;
  }

  /** Lines of text that hold no line feed are read back, all but the last without a final carriage return. */
  lemma {:induction false} LinesOfJoin(first: string, rest: seq<string>)
    requires '\n' !in first && first != "" && rest != []
    requires '\n' !in Join(rest) || |rest| > 1
    ensures Lines(Join([first] + rest)) == [StripCr(first)] + Lines(Join(rest))
  {
    var tail := Join(rest);
    var text := first + "\n" + tail;
    assert ([first] + rest)[1..] == rest;
    assert Join([first] + rest) == text;
    FindAt(first, '\n', tail);
    assert text == first + ['\n'] + tail;
    assert text[..|first|] == first && text[|first| + 1..] == tail;
  }

  ghost predicate KeysOk(order: seq<Pair>) {
    && (forall i :: 0 <= i < |order| ==> '=' !in order[i].key && '\n' !in order[i].key)
    && (forall i, j :: 0 <= i < j < |order| ==> order[i].key != order[j].key)
  }

  ghost predicate NoLineFeeds(order: seq<Pair>) {
    forall i :: 0 <= i < |order| ==> '\n' !in order[i].value
  }

  /** Printed pairs free of line feeds arrive one per line. */
  lemma {:induction false} LinesOfPrint(order: seq<Pair>)
    requires KeysOk(order) && NoLineFeeds(order)
    ensures Lines(Print(order)) == Texts(Arrived(order))
  {
    if |order| == 1 {
      assert Texts(order) == [order[0].Text()];
      assert '\n' !in order[0].Text();
    } else if |order| > 1 {
      var p, rest := order[0], order[1..];
      LinesOfPrint(rest);
      assert Texts(order) == [p.Text()] + Texts(rest);
      LinesOfJoin(p.Text(), Texts(rest));
      assert StripCr(p.Text()) == p.(value := StripCr(p.value)).Text();
      var arrived := p.(value := StripCr(p.value));
      assert ([arrived] + Arrived(rest))[1..] == Arrived(rest);
    }
  }

  lemma {:induction false} ArrivedShape(order: seq<Pair>)
    ensures |Arrived(order)| == |order|
    ensures forall i :: 0 <= i < |order| ==>
      Arrived(order)[i] == if i < |order| - 1 then order[i].(value := StripCr(order[i].value)) else order[i]
  {
    if |order| > 1 {
      ArrivedShape(order[1..]);
    }
  }

  lemma {:induction false} TextsShape(order: seq<Pair>)
    ensures |Texts(order)| == |order| && forall i :: 0 <= i < |order| ==> Texts(order)[i] == order[i].Text()
  {
    if order != [] {
      TextsShape(order[1..]);
    }
  }

  /** Lines printed from pairs with distinct keys are collected into exactly those pairs. */
  lemma {:induction false} CollectOfTexts(lines: seq<string>, order: seq<Pair>)
    requires |lines| == |order| && forall i :: 0 <= i < |order| ==> lines[i] == order[i].Text()
    requires KeysOk(order)
    ensures forall i :: 0 <= i < |order| ==>
      order[i].key in Collect(lines) && Collect(lines)[order[i].key] == order[i].value
  {
    if lines != [] {
      var n := |lines| - 1;
      CollectOfTexts(lines[..n], order[..n]);
      PairSplits(order[n]);
      forall i | 0 <= i < |order|
        ensures order[i].key in Collect(lines) && Collect(lines)[order[i].key] == order[i].value
      {
        if i < n {
          assert order[..n][i] == order[i];
        }
      }
    }
  }

  /** What every value becomes: without line feeds, each non-final value loses a final carriage return. */
  lemma ValuesArrive(order: seq<Pair>)
    requires KeysOk(order) && NoLineFeeds(order)
    ensures var config := Collect(Lines(Print(order)));
      forall i :: 0 <= i < |order| ==>
        && order[i].key in config
        && config[order[i].key] == if i < |order| - 1 then StripCr(order[i].value) else order[i].value
  {
    LinesOfPrint(order);
    ArrivedShape(order);
    TextsShape(Arrived(order));
    CollectOfTexts(Texts(Arrived(order)), Arrived(order));
    forall i | 0 <= i < |order|
      ensures order[i].key == Arrived(order)[i].key
    {
    }
  }

  // ----- a value with a line feed is lost -----

  lemma {:induction false} LinesHoldNoLineFeed(text: string)
    ensures forall line :: line in Lines(text) ==> '\n' !in line
    decreases |text|
  {
    if text != "" {
      var k := Find(text, '\n');
      assert text[..|text|] == text;
      if k < |text| {
        LinesHoldNoLineFeed(text[k + 1..]);
        forall line | line in Lines(text)
          ensures '\n' !in line
        {
          assert line == StripCr(text[..k]) || line in Lines(text[k + 1..]);
        }
      }
    }
  }

  lemma {:induction false} CollectHoldsNoLineFeed(lines: seq<string>)
    requires forall line :: line in lines ==> '\n' !in line
    ensures forall key :: key in Collect(lines) ==> '\n' !in Collect(lines)[key]
  {
    if lines != [] {
      CollectHoldsNoLineFeed(lines[..|lines| - 1]);
      assert lines[|lines| - 1] in lines;
    }
  }

  // ----- the round trip -----

  /** The printed pairs in the order given by a shuffle. */
  function Order(s: Settings, shuffle: seq<nat>): seq<Pair>
    requires s.Printable() && IsShuffle(shuffle)
  {
    Shuffled(s.Pairs(), shuffle)
  }

  lemma KeyFacts()
    ensures WORKSPACE_ID != WORKSPACE_PEER && WORKSPACE_ID != WORKSPACE_PORT && WORKSPACE_ID != WORKSPACE_IP
    ensures WORKSPACE_PEER != WORKSPACE_PORT && WORKSPACE_PEER != WORKSPACE_IP && WORKSPACE_PORT != WORKSPACE_IP
    ensures forall k :: k in {WORKSPACE_ID, WORKSPACE_PEER, WORKSPACE_PORT, WORKSPACE_IP} ==> '=' !in k && '\n' !in k
  {
  }

  lemma ShuffledKeys(pairs: seq<Pair>, shuffle: seq<nat>)
    requires |pairs| == 4 && KeysOk(pairs) && IsShuffle(shuffle)
    ensures KeysOk(Shuffled(pairs, shuffle))
  {
  }

  lemma ShuffledMembers(pairs: seq<Pair>, shuffle: seq<nat>)
    requires |pairs| == 4 && IsShuffle(shuffle)
    ensures forall p :: p in pairs <==> p in Shuffled(pairs, shuffle)
  {
  }

  lemma OrderKeys(s: Settings, shuffle: seq<nat>)
    requires s.Printable() && IsShuffle(shuffle)
    ensures KeysOk(Order(s, shuffle)) && |Order(s, shuffle)| == 4
    ensures forall p :: p in s.Pairs() <==> p in Order(s, shuffle)
  {
    KeyFacts();
    ShuffledKeys(s.Pairs(), shuffle);
    ShuffledMembers(s.Pairs(), shuffle);
  }

  lemma PortIsClean(n: U16)
    ensures Clean(Decimal(n))
  {
  }

  lemma CleanRestores(s: Settings, shuffle: seq<nat>)
    requires s.Printable() && IsShuffle(shuffle) && CleanOrder(Order(s, shuffle))
    ensures Restores(s, Print(Order(s, shuffle)))
  {
    var order := Order(s, shuffle);
    OrderKeys(s, shuffle);
    ValuesArrive(order);
    var config := Collect(Lines(Print(order)));
    forall p | p in s.Pairs()
      ensures p.key in config && config[p.key] == p.value
    {
      var i :| 0 <= i < |order| && order[i] == p;
    }
    assert s.Pairs()[0] in s.Pairs() && s.Pairs()[1] in s.Pairs();
    assert s.Pairs()[2] in s.Pairs() && s.Pairs()[3] in s.Pairs();
    PortRoundTrip(s.port.value);
  }

  /** Loaded into a blank configuration, the restored settings can only have come from the text. */
  lemma RestoredValues(s: Settings, text: string)
    requires s.Printable() && Restores(s, text)
    ensures var config := Collect(Lines(text));
      && WORKSPACE_ID in config && config[WORKSPACE_ID] == s.workSpaceId.value
      && WORKSPACE_PEER in config && config[WORKSPACE_PEER] == s.adminPeer.value
      && WORKSPACE_IP in config && config[WORKSPACE_IP] == s.Ip()
  {
    var blank := DEFAULT.Loaded(text);
    assert blank.workSpaceId == s.workSpaceId && blank.adminPeer == s.adminPeer && blank.adminIp == Some(s.Ip());
  }

  lemma RestoredFromText(s: Settings, text: string)
    requires s.Printable() && Restores(s, text)
    ensures var config := Collect(Lines(text));
      forall p :: p in s.Pairs() && p.key != WORKSPACE_PORT ==> p.key in config && config[p.key] == p.value
  {
    RestoredValues(s, text);
    PairByKey(s);
  }

  lemma PairByKey(s: Settings)
    requires s.Printable()
    ensures forall p :: p in s.Pairs() && p.key != WORKSPACE_PORT ==>
      p in {Pair(WORKSPACE_ID, s.workSpaceId.value), Pair(WORKSPACE_PEER, s.adminPeer.value),
            Pair(WORKSPACE_IP, s.Ip())}
  {
  }

  lemma RestoredHoldsNoLineFeed(s: Settings, text: string)
    requires s.Printable() && Restores(s, text)
    ensures forall p :: p in s.Pairs() ==> '\n' !in p.value
  {
    RestoredFromText(s, text);
    LinesHoldNoLineFeed(text);
    CollectHoldsNoLineFeed(Lines(text));
    PortIsClean(s.port.value);
    KeyFacts();
  }

  /** If every value was read back or is clean anyway, the order is clean. */
  lemma ReadBackIsClean(order: seq<Pair>)
    requires KeysOk(order) && NoLineFeeds(order)
    requires var config := Collect(Lines(Print(order)));
      forall p :: p in order ==> (p.key in config && config[p.key] == p.value) || Clean(p.value)
    ensures CleanOrder(order)
  {
    ValuesArrive(order);
    forall i | 0 <= i < |order| - 1
      ensures !EndsInCr(order[i].value)
    {
      assert order[i] in order;
    }
  }

  lemma RestoredIsClean(s: Settings, shuffle: seq<nat>)
    requires s.Printable() && IsShuffle(shuffle) && Restores(s, Print(Order(s, shuffle)))
    ensures CleanOrder(Order(s, shuffle))
  {
    OrderKeys(s, shuffle);
    PortPairIsClean(s);
    RestoredFromText(s, Print(Order(s, shuffle)));
    RestoredHoldsNoLineFeed(s, Print(Order(s, shuffle)));
    ReadBackIsClean(Order(s, shuffle));
  }

  lemma PortPairIsClean(s: Settings)
    requires s.Printable()
    ensures forall p :: p in s.Pairs() && p.key == WORKSPACE_PORT ==> Clean(p.value)
  {
    KeyFacts();
    PortIsClean(s.port.value);
  }

  /** Printed in a given order, the settings read back exactly if and only if no value contains a line
      feed and no value but the last ends in a carriage return. Equals signs do no harm. */
  lemma RestoresIff(s: Settings, shuffle: seq<nat>)
    requires s.Printable() && IsShuffle(shuffle)
    ensures Restores(s, Print(Order(s, shuffle))) <==> CleanOrder(Order(s, shuffle))
  {
    if CleanOrder(Order(s, shuffle)) {
      CleanRestores(s, shuffle);
    }
    if Restores(s, Print(Order(s, shuffle))) {
      RestoredIsClean(s, shuffle);
    }
  }

  ghost predicate RestoresInEveryOrder(s: Settings)
    requires s.Printable()
  {
    forall shuffle :: IsShuffle(shuffle) ==> RestoresIn(s, shuffle)
  }

  ghost predicate RestoresIn(s: Settings, shuffle: seq<nat>)
    requires s.Printable() && IsShuffle(shuffle)
  {
    Restores(s, Print(Order(s, shuffle)))
  }

  lemma CleanInOrder(s: Settings, shuffle: seq<nat>)
    requires s.Printable() && IsShuffle(shuffle)
    requires Clean(s.workSpaceId.value) && Clean(s.adminPeer.value) && Clean(s.Ip())
    ensures CleanOrder(Order(s, shuffle))
  {
    PortIsClean(s.port.value);
    OrderKeys(s, shuffle);
    var order := Order(s, shuffle);
    forall i | 0 <= i < |order|
      ensures Clean(order[i].value)
    {
      assert order[i] in s.Pairs();
    }
  }

  lemma FirstIsClean(s: Settings, shuffle: seq<nat>)
    requires s.Printable() && IsShuffle(shuffle) && Restores(s, Print(Order(s, shuffle)))
    ensures Clean(s.Pairs()[shuffle[0]].value)
  {
    RestoresIff(s, shuffle);
    assert Order(s, shuffle)[0] == s.Pairs()[shuffle[0]];
  }

  lemma CleanRestoresInEveryOrder(s: Settings)
    requires s.Printable()
    requires Clean(s.workSpaceId.value) && Clean(s.adminPeer.value) && Clean(s.Ip())
    ensures RestoresInEveryOrder(s)
  {
    if !RestoresInEveryOrder(s) {
      var shuffle :| IsShuffle(shuffle) && !RestoresIn(s, shuffle);
      CleanRestoresInOrder(s, shuffle);
    }
  }

  lemma CleanRestoresInOrder(s: Settings, shuffle: seq<nat>)
    requires s.Printable() && IsShuffle(shuffle)
    requires Clean(s.workSpaceId.value) && Clean(s.adminPeer.value) && Clean(s.Ip())
    ensures RestoresIn(s, shuffle)
  {
    CleanInOrder(s, shuffle);
    CleanRestores(s, shuffle);
  }

  lemma RestoredInEveryOrderIsClean(s: Settings)
    requires s.Printable() && RestoresInEveryOrder(s)
    ensures Clean(s.workSpaceId.value) && Clean(s.adminPeer.value) && Clean(s.Ip())
  {
    EachIsClean(s, 0);
    EachIsClean(s, 1);
    EachIsClean(s, 3);
  }

  /** Any of the values can come first, where a carriage return at its end would be lost. */
  lemma EachIsClean(s: Settings, k: nat)
    requires s.Printable() && RestoresInEveryOrder(s) && k < 4
    ensures Clean(s.Pairs()[k].value)
  {
    var shuffle := Starting(k);
    assert RestoresIn(s, shuffle);
    FirstIsClean(s, shuffle);
  }

  lemma Starting(k: nat) returns (shuffle: seq<nat>)
    requires k < 4
    ensures IsShuffle(shuffle) && shuffle[0] == k
  {
    shuffle := [k, (k + 1) % 4, (k + 2) % 4, (k + 3) % 4];
  }

  /** Since the order is arbitrary, the file can be relied on if and only if the workspace id, the
      administrator and the address hold no line feed and do not end in a carriage return. */
  lemma RestoresInEveryOrderIff(s: Settings)
    requires s.Printable()
    ensures RestoresInEveryOrder(s)
       <==> Clean(s.workSpaceId.value) && Clean(s.adminPeer.value) && Clean(s.Ip())
  {
    if RestoresInEveryOrder(s) {
      RestoredInEveryOrderIsClean(s);
    } else if Clean(s.workSpaceId.value) && Clean(s.adminPeer.value) && Clean(s.Ip()) {
      CleanRestoresInEveryOrder(s);
    }
  }
}
