/**
 * The argument string that the Mininet launcher hands to each FRESCO node:
 * `-i<id> ` followed by one `-p<party>:<ip>:9001 ` per host, parties
 * numbered from 1 in host order. A host is represented by its IP address.
 */
module Mininet {
  import opened Decimal

  const PORT: string := "9001"

  /** The node's own id option. */
  function IdToken(nodeId: int): string
  {
    "-i" + IntToString(nodeId)
  }

  /** The party option for the host with party number `party`. */
  function PartyToken(party: nat, ip: string): string
  {
    "-p" + NatToString(party) + ":" + ip + ":" + PORT
  }

  /** What `generate_node_config` appends for the host at 0-based position k. */
  function Segment(k: nat, ip: string): string
  {
    PartyToken(k + 1, ip) + " "
  }

  /** The segments of all hosts in order. */
  function Segments(ips: seq<string>): string
    decreases |ips|
  {
    if ips == [] then "" else Segments(ips[..|ips| - 1]) + Segment(|ips| - 1, ips[|ips| - 1])
  }

  /** The whole argument string. */
  function NodeConfig(nodeId: int, ips: seq<string>): (config: string)
    ensures |config| > 2 && config[..2] == "-i"
  {
    IdToken(nodeId) + " " + Segments(ips)
  }

  /** `generate_node_config`: the id option, then one segment per host appended in a loop. */
  method GenerateNodeConfig(nodeId: int, ips: seq<string>) returns (config: string)
    ensures config == NodeConfig(nodeId, ips)
  {
    config := "-i" + IntToString(nodeId) + " ";
    for identifier := 0 to |ips|
      invariant config == IdToken(nodeId) + " " + Segments(ips[..identifier])
    {
      var segment := "-p" + NatToString(identifier + 1) + ":" + ips[identifier] + ":" + PORT + " ";
      assert Segments(ips[..identifier + 1]) == Segments(ips[..identifier]) + segment by {
        assert ips[..identifier + 1][..identifier] == ips[..identifier];
      }
      config := config + segment;
    }
    assert ips[..|ips|] == ips;
  }

  /** Words each followed by one space. */
  function Join(words: seq<string>): string
    decreases |words|
  {
    if words == [] then "" else words[0] + " " + Join(words[1..])
  }

  /** The index of the first space in s. */
  function FirstSpace(s: string): (i: nat)
    requires ' ' in s
    ensures i < |s| && s[i] == ' ' && ' ' !in s[..i]
  {
    if s[0] == ' ' then 0 else
      var i := 1 + FirstSpace(s[1..]);
      assert s[..i] == [s[0]] + s[1..][..i - 1];
      i
  }

  /** Splits s at its spaces; text after the last space, if any, is one more word. */
  function Split(s: string): seq<string>
    decreases |s|
  {
    if ' ' !in s then (if s == [] then [] else [s])
    else
      var i := FirstSpace(s);
      [s[..i]] + Split(s[i + 1..])
  }

  lemma {:induction false} JoinAppend(a: seq<string>, b: seq<string>)
    ensures Join(a + b) == Join(a) + Join(b)
    decreases |a|
  {
    if a == [] {
      assert a + b == b;
    } else {
      JoinAppend(a[1..], b);
      assert (a + b)[0] == a[0] && (a + b)[1..] == a[1..] + b;
    }
  }

  /** The first space after a word without spaces is the one that ends it. */
  lemma {:induction false} FirstSpaceAfterWord(w: string, t: string)
    requires ' ' !in w
    ensures FirstSpace(w + " " + t) == |w|
    decreases |w|
  {
    var s := w + " " + t;
    if w != [] {
      assert s[0] == w[0];
      assert s[1..] == w[1..] + " " + t;
      FirstSpaceAfterWord(w[1..], t);
    }
  }

  /** Splitting words that contain no space, each followed by a space, gives the words back. */
  lemma {:induction false} SplitJoin(words: seq<string>)
    requires forall k :: 0 <= k < |words| ==> ' ' !in words[k]
    ensures Split(Join(words)) == words
    decreases |words|
  {
    if words != [] {
      var w, s := words[0], Join(words);
      assert s == w + " " + Join(words[1..]);
      assert s[|w|] == ' ' && s[..|w|] == w;
      FirstSpaceAfterWord(w, Join(words[1..]));
      assert s[|w| + 1..] == Join(words[1..]);
      assert Split(s) == [w] + Split(Join(words[1..]));
      SplitJoin(words[1..]);
      assert words == [w] + words[1..];
    }
  }

  /** The words of the argument string: the id option, then the party options in host order. */
  function Tokens(nodeId: int, ips: seq<string>): (words: seq<string>)
    ensures |words| == |ips| + 1 && words[0] == IdToken(nodeId)
    ensures forall k :: 0 <= k < |ips| ==> words[k + 1] == PartyToken(k + 1, ips[k])
  {
    [IdToken(nodeId)] + seq(|ips|, k requires 0 <= k < |ips| => PartyToken(k + 1, ips[k]))
  }

  /** One more host adds its party option as the last word. */
  lemma TokensSnoc(nodeId: int, ips: seq<string>)
    requires |ips| > 0
    ensures Tokens(nodeId, ips) == Tokens(nodeId, ips[..|ips| - 1]) + [PartyToken(|ips|, ips[|ips| - 1])]
  {
    var n := |ips| - 1;
    var a, b := Tokens(nodeId, ips), Tokens(nodeId, ips[..n]) + [PartyToken(n + 1, ips[n])];
    forall k | 0 <= k < |a|
      ensures a[k] == b[k]
    {
      if 0 < k <= n {
        assert ips[..n][k - 1] == ips[k - 1];
      }
    }
  }

  /** One more host appends its party option and a space. */
  lemma NodeConfigSnoc(nodeId: int, ips: seq<string>)
    requires |ips| > 0
    ensures NodeConfig(nodeId, ips)
         == NodeConfig(nodeId, ips[..|ips| - 1]) + (PartyToken(|ips|, ips[|ips| - 1]) + " ")
  {
  }

  /** The argument string is the words of `Tokens`, each followed by one space. */
  lemma {:induction false} NodeConfigIsJoin(nodeId: int, ips: seq<string>)
    ensures NodeConfig(nodeId, ips) == Join(Tokens(nodeId, ips))
    decreases |ips|
  {
    if ips == [] {
      assert Join([IdToken(nodeId)]) == IdToken(nodeId) + " " + Join([]);
    } else {
      var n := |ips| - 1;
      var t := PartyToken(n + 1, ips[n]);
      calc {
        NodeConfig(nodeId, ips);
        { NodeConfigSnoc(nodeId, ips); }
        NodeConfig(nodeId, ips[..n]) + (t + " ");
        { NodeConfigIsJoin(nodeId, ips[..n]);
          assert Join([t]) == t + " " + Join([]); }
        Join(Tokens(nodeId, ips[..n])) + Join([t]);
        { JoinAppend(Tokens(nodeId, ips[..n]), [t]); }
        Join(Tokens(nodeId, ips[..n]) + [t]);
        { TokensSnoc(nodeId, ips); }
        Join(Tokens(nodeId, ips));
      }
    }
  }

  lemma NatToStringHasNoSpace(n: nat)
    ensures ' ' !in NatToString(n)
  {
    var s := NatToString(n);
    forall i | 0 <= i < |s|
      ensures s[i] != ' '
    {
      assert IsDigit(s[i]);
    }
  }

  lemma PartyTokenHasNoSpace(party: nat, ip: string)
    requires ' ' !in ip
    ensures ' ' !in PartyToken(party, ip)
  {
    NatToStringHasNoSpace(party);
    var p := NatToString(party);
    assert PartyToken(party, ip) == "-p" + p + ":" + ip + ":" + PORT;
  }

  /**
   * With IP addresses free of spaces, the argument string splits into the id
   * option and exactly one party option per host: party numbers 1 to n in
   * host order, each with that host's address and port 9001.
   */
  lemma NodeConfigWords(nodeId: int, ips: seq<string>)
    requires forall k :: 0 <= k < |ips| ==> ' ' !in ips[k]
    ensures Split(NodeConfig(nodeId, ips)) == Tokens(nodeId, ips)
  {
    var words := Tokens(nodeId, ips);
    forall k | 0 <= k < |words|
      ensures ' ' !in words[k]
    {
      if k > 0 {
        PartyTokenHasNoSpace(k, ips[k - 1]);
      }
    }
    NodeConfigIsJoin(nodeId, ips);
    SplitJoin(words);
  }

  /** The argument string ends with a single space, after a character that is not a space. */
  lemma NodeConfigEndsWithSpace(nodeId: int, ips: seq<string>)
    ensures var s := NodeConfig(nodeId, ips); |s| >= 2 && s[|s| - 1] == ' ' && s[|s| - 2] != ' '
  {
    var s := NodeConfig(nodeId, ips);
    if ips == [] {
      var id := IdToken(nodeId);
      assert s == id + " " && id[|id| - 1] == IntToString(nodeId)[|IntToString(nodeId)| - 1];
    } else {
      var n := |ips| - 1;
      var seg := Segment(n, ips[n]);
      assert s == IdToken(nodeId) + " " + Segments(ips[..n]) + seg;
      assert seg[|seg| - 2] == PORT[3];
    }
  }
}
