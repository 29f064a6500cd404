/**
  The bridge's peer table, `Dictionary<int, bool>` from peer id to "is sending",
  as a value, with the three updates its event handlers apply and the text
  the peer-list display shows for it.
*/
module PeerTable {
  import opened Wrappers
  import opened Text

  /** A C# `int`. */
  type Int32 = x: int | -0x8000_0000 <= x < 0x8000_0000

  type Table = map<Int32, bool>

  /** `table[peerId] = false`: a (re)joined peer is present and not sending, whatever it was before. */
  function Join(t: Table, peerId: Int32): (r: Table)
    ensures peerId in r && !r[peerId]
    ensures r.Keys == t.Keys + {peerId}
    ensures forall q :: q in t && q != peerId ==> r[q] == t[q]
  {
    t[peerId := false]
  }

  /** `table.Remove(peerId)`: the peer is gone; removing an absent peer changes nothing. */
  function Leave(t: Table, peerId: Int32): (r: Table)
    ensures peerId !in r
    ensures r.Keys == t.Keys - {peerId}
    ensures forall q :: q in r ==> r[q] == t[q]
    ensures peerId !in t ==> r == t
  {
    t - {peerId}
  }

  /** `table[peerId] = active`: an upsert, so an activity report for an unknown peer adds it. */
  function RecordActivity(t: Table, peerId: Int32, active: bool): (r: Table)
    ensures peerId in r && r[peerId] == active
    ensures r.Keys == t.Keys + {peerId}
    ensures forall q :: q in t && q != peerId ==> r[q] == t[q]
  {
    t[peerId := active]
  }

  const LinePrefix: string := "Peer "
  const LineMiddle: string := " connected, is sending: "

  /** The display line for one table entry. */
  function PeerLine(peerId: Int32, isSending: bool): string {
    LinePrefix + IntToString(peerId) + LineMiddle + BoolToString(isSending)
  }

  /** Reads the peer id and flag back out of a display line. */
  function ParsePeerLine(line: string): Option<(int, bool)> {
    if |line| < |LinePrefix| || line[..|LinePrefix|] != LinePrefix then None
    else
      var rest := line[|LinePrefix|..];
      var i := IndexOf(rest, ' ');
      var tail := rest[i..];
      if |tail| < |LineMiddle| || tail[..|LineMiddle|] != LineMiddle then None
      else
        match (ParseInt(rest[..i]), ParseBool(tail[|LineMiddle|..]))
        case (Some(id), Some(b)) => Some((id, b))
        case _ => None
  }

  /** Where the parser cuts a line made of a prefix, a space-free id, a middle starting with a space, and a flag. */
  lemma LineShape(p: string, d: string, m: string, b: string)
    requires |m| > 0 && m[0] == ' '
    requires forall j :: 0 <= j < |d| ==> d[j] != ' '
    ensures (p + d + m + b)[..|p|] == p
    ensures (p + d + m + b)[|p|..] == d + m + b
    ensures IndexOf(d + m + b, ' ') == |d|
    ensures (d + m + b)[..|d|] == d && (d + m + b)[|d|..] == m + b
    ensures (m + b)[..|m|] == m && (m + b)[|m|..] == b
  {
    var rest := d + m + b;
    assert rest[|d|] == ' ';
    assert forall j :: 0 <= j < |d| ==> rest[j] == d[j];
  }

  /** A display line names exactly the peer and flag it was made from. */
  lemma {:induction false} PeerLineRoundTrip(peerId: Int32, isSending: bool)
    ensures ParsePeerLine(PeerLine(peerId, isSending)) == Some((peerId as int, isSending))
  {
    var d, b := IntToString(peerId), BoolToString(isSending);
    assert LineMiddle[0] == ' ';
    LineShape(LinePrefix, d, LineMiddle, b);
    IntToStringRoundTrip(peerId);
    BoolToStringRoundTrip(isSending);
  }

  /** A display line holds no line terminator of its own. */
  lemma PeerLineIsOneLine(peerId: Int32, isSending: bool)
    ensures NoNewline(PeerLine(peerId, isSending))
  {
    var d, b := IntToString(peerId), BoolToString(isSending);
    assert PeerLine(peerId, isSending) == LinePrefix + d + LineMiddle + b;
  }

  /** `order` lists every key of the table exactly once: one pass of a `foreach` over it. */
  predicate IsEnumeration(order: seq<Int32>, keys: set<Int32>) {
    && (forall i, j :: 0 <= i < j < |order| ==> order[i] != order[j])
    && (forall k :: k in order ==> k in keys)
    && (forall k :: k in keys ==> k in order)
  }

  lemma {:induction false} EnumerationSize(order: seq<Int32>, keys: set<Int32>)
    requires IsEnumeration(order, keys)
    ensures |order| == |keys|
  {
    if order != [] {
      var last := order[|order| - 1];
      var front := order[..|order| - 1];
      assert forall k :: k in front <==> k in order && k != last by {
        forall k ensures k in front <==> k in order && k != last {
          if k in order && k != last {
            var i :| 0 <= i < |order| && order[i] == k;
            assert i < |order| - 1 && front[i] == k;
          }
        }
      }
      assert IsEnumeration(front, keys - {last});
      EnumerationSize(front, keys - {last});
    }
  }

  /** Visiting one more, new, key extends an enumeration by that key. */
  lemma EnumerationExtend(order: seq<Int32>, visited: set<Int32>, k: Int32)
    requires IsEnumeration(order, visited) && k !in visited
    ensures IsEnumeration(order + [k], visited + {k})
  {
    assert forall i :: 0 <= i < |order| ==> (order + [k])[i] == order[i];
  }

  /** The lines `UpdatePeerListDisplay` appends when it visits the keys in `order`. */
  function Lines(t: Table, order: seq<Int32>): (lines: seq<string>)
    requires forall k :: k in order ==> k in t
    ensures |lines| == |order|
    ensures forall i :: 0 <= i < |order| ==> lines[i] == PeerLine(order[i], t[order[i]])
  {
    if order == [] then [] else [PeerLine(order[0], t[order[0]])] + Lines(t, order[1..])
  }

  /** The display text for the table, its entries visited in `order`. */
  function RenderTable(t: Table, order: seq<Int32>): string
    requires forall k :: k in order ==> k in t
  {
    RenderLines(Lines(t, order))
  }

  /** Visiting one more key appends its line to the text. */
  lemma {:induction false} RenderTableSnoc(prefix: string, t: Table, order: seq<Int32>, k: Int32)
    requires forall q :: q in order ==> q in t
    requires k in t
    ensures RenderTable(t, order + [k]) == RenderTable(t, order) + PeerLine(k, t[k]) + NewLine
    // The same fact behind the builder's earlier content, stated so the display loop needs no associativity step.
    ensures prefix + RenderTable(t, order + [k]) == prefix + RenderTable(t, order) + PeerLine(k, t[k]) + NewLine
  {
    assert Lines(t, order + [k]) == Lines(t, order) + [PeerLine(k, t[k])];
    RenderLinesSnoc(Lines(t, order), PeerLine(k, t[k]));
  }

  /** The rendered text reads back as the lines that were appended. */
  lemma {:induction false} RenderTableSplits(t: Table, order: seq<Int32>)
    requires forall k :: k in order ==> k in t
    ensures SplitLines(RenderTable(t, order)) == Lines(t, order)
  {
    var lines := Lines(t, order);
    forall i | 0 <= i < |lines| ensures NoNewline(lines[i]) {
      PeerLineIsOneLine(order[i], t[order[i]]);
    }
    SplitRenderLines(lines);
  }

  /** Each appended line decodes to the key visited at that step and its flag. */
  lemma {:induction false} LinesDecode(t: Table, order: seq<Int32>)
    requires forall k :: k in order ==> k in t
    ensures forall i :: 0 <= i < |order| ==>
      ParsePeerLine(Lines(t, order)[i]) == Some((order[i] as int, t[order[i]]))
  {
    var lines := Lines(t, order);
    forall i | 0 <= i < |order| ensures ParsePeerLine(lines[i]) == Some((order[i] as int, t[order[i]])) {
      PeerLineRoundTrip(order[i], t[order[i]]);
    }
  }

  /**
    The rendered text of a table has exactly one line per entry, the i-th naming
    the i-th key visited and its flag; every entry appears.
  */
  lemma {:induction false} DisplayListsTable(t: Table, order: seq<Int32>)
    requires IsEnumeration(order, t.Keys)
    ensures |SplitLines(RenderTable(t, order))| == |order| == |t|
    ensures forall i :: 0 <= i < |order| ==>
      ParsePeerLine(SplitLines(RenderTable(t, order))[i]) == Some((order[i] as int, t[order[i]]))
    ensures forall k :: k in t ==>
              exists i :: 0 <= i < |order| && ParsePeerLine(SplitLines(RenderTable(t, order))[i]) == Some((k as int, t[k]))
  {
    RenderTableSplits(t, order);
    EnumerationSize(order, t.Keys);
    LinesDecode(t, order);
    var lines := SplitLines(RenderTable(t, order));
    forall k | k in t ensures exists i :: 0 <= i < |order| && ParsePeerLine(lines[i]) == Some((k as int, t[k])) {
      var i :| 0 <= i < |order| && order[i] == k;
      assert ParsePeerLine(lines[i]) == Some((order[i] as int, t[order[i]]));
    }
  }
}
