/** The repacking loops as they run. */
module Repack {
  import opened Routes
  import opened Bytes
  import opened Updates
  import opened UpdateStream

  /** `split_attributes`. */
  method SplitAttributes(b: seq<Byte>) returns (r: Option<seq<Attr>>)
    ensures r == SplitFrom(b, 0)
  {
    hide HeadAt;
    var out: seq<Attr>, off: nat := [], 0;
    ghost var whole := SplitFrom(b, 0);
    if whole.Some? { assert [] + whole.value == whole.value; }
    while off + 2 <= |b|
      invariant match SplitFrom(b, off)
                case None => whole.None?
                case Some(rest) => whole == Some(out + rest)
      decreases |b| - off
    {
      var h := HeadAt(b, off);
      if h == None || h.value.start + h.value.len > |b| {
        return None;
      }
      HeadMovesOn(b, off);
      ghost var was := out;
      var a := Attr(h.value.flags, h.value.atype, b[h.value.start..h.value.start + h.value.len]);
      out, off := out + [a], h.value.start + h.value.len;
      if SplitFrom(b, off).Some? { assert was + ([a] + SplitFrom(b, off).value) == out + SplitFrom(b, off).value; }
    }
    assert out + [] == out;
    r := Some(out);
  }

  lemma HeadMovesOn(b: seq<Byte>, pos: nat)
    requires pos + 2 <= |b| && HeadAt(b, pos).Some?
    ensures HeadAt(b, pos).value.start > pos
  {
  }

  /** `_group_by_attrs`: an ordered dictionary, one pass. */
  method GroupByAttrs(entries: seq<Entry>) returns (groups: seq<Group>)
    ensures groups == GroupBy(entries)
  {
    groups := [];
    for i := 0 to |entries|
      invariant groups == GroupBy(entries[..i])
    {
      assert entries[..i + 1][..i] == entries[..i];
      var at := Find(groups, entries[i].shared);
      if at == |groups| {
        groups := groups + [Group(entries[i].shared, [entries[i].member])];
      } else {
        groups := groups[at := Group(entries[i].shared, groups[at].members + [entries[i].member])];
      }
    }
    assert entries[..|entries|] == entries;
  }

  method Find(groups: seq<Group>, k: Shared) returns (i: nat)
    ensures i == IndexOf(groups, k)
  {
    i := 0;
    while i < |groups| && groups[i].shared != k
      invariant 0 <= i <= |groups|
      invariant forall j :: 0 <= j < i ==> groups[j].shared != k
    {
      i := i + 1;
    }
  }

  /** `_fill`. */
  method FillMessages(members: seq<Member>, room: nat) returns (batches: seq<seq<Member>>)
    ensures batches == Fill(members, room)
  {
    var buf: seq<Member> := [];
    var used := 0;
    batches := [];
    assert members[0..] == members;
    assert [] + Fill(members, room) == Fill(members, room);
    for i := 0 to |members|
      invariant used == |PackAll(buf)|
      invariant Fill(members, room) == batches + FillFrom(members[i..], room, buf)
    {
      var item := Pack(members[i]);
      assert members[i..][1..] == members[i + 1..];
      if used + |item| > room && buf != [] {
        assert batches + ([buf] + FillFrom(members[i + 1..], room, [members[i]]))
            == (batches + [buf]) + FillFrom(members[i + 1..], room, [members[i]]);
        batches := batches + [buf];
        buf, used := [], 0;
      }
      PackSnoc(buf, members[i]);
      assert [] + [members[i]] == [members[i]];
      buf := buf + [members[i]];
      used := used + |item|;
    }
    assert members[|members|..] == [];
    if buf != [] {
      batches := batches + [buf];
    }
    assert batches + [] == batches;
  }

  /** Every group's batches, in order; None when a group's attributes leave no
      room for a prefix. */
  method BatchAll(groups: seq<Group>, maxMsg: nat) returns (r: Option<seq<Group>>)
    ensures r == Batches(groups, maxMsg)
  {
    hide Fill, Room;
    var batches: seq<Group> := [];
    assert groups[0..] == groups;
    ghost var whole := Batches(groups, maxMsg);
    if whole.Some? { assert [] + whole.value == whole.value; }
    for i := 0 to |groups|
      invariant match Batches(groups[i..], maxMsg)
                case None => whole.None?
                case Some(rest) => whole == Some(batches + rest)
    {
      var shared := groups[i].shared;
      var room := Room(shared, maxMsg);
      assert groups[i..][1..] == groups[i + 1..];
      if room <= 0 {
        return None;
      }
      var fills := FillMessages(groups[i].members, room);
      ghost var was := batches;
      batches := batches + Batched(shared, fills);
      if Batches(groups[i + 1..], maxMsg).Some? {
        ghost var rest := Batches(groups[i + 1..], maxMsg).value;
        assert was + (Batched(shared, fills) + rest) == batches + rest;
      }
    }
    assert batches + [] == batches;
    r := Some(batches);
  }

  method Emit(batches: seq<Group>) returns (stream: seq<Byte>, packed: nat)
    requires AllSendable(batches)
    ensures stream == StreamOf(batches) && packed == Members(batches)
  {
    hide MessageOf, Sendable;
    stream, packed := [], 0;
    assert batches[0..] == batches;
    for j := 0 to |batches|
      invariant StreamOf(batches) == stream + StreamOf(batches[j..])
      invariant Members(batches) == packed + Members(batches[j..])
    {
      assert batches[j..][1..] == batches[j + 1..];
      assert stream + (MessageOf(batches[j]) + StreamOf(batches[j + 1..])) == (stream + MessageOf(batches[j])) +
          StreamOf(batches[j + 1..]);
      stream := stream + MessageOf(batches[j]);
      packed := packed + |batches[j].members|;
    }
    assert stream + [] == stream;
  }

  /** `build_updates`. */
  method BuildUpdates(entries: seq<Entry>, maxMsg: nat) returns (r: Option<Built>)
    ensures r == Build(entries, maxMsg)
  {
    hide GroupBy, Batches, Sendable, StreamOf;
    var groups := GroupByAttrs(entries);
    var batches := BatchAll(groups, maxMsg);
    if batches == None || !AllSendable(batches.value) {
      return None;
    }
    var stream, packed := Emit(batches.value);
    r := Some(Built(stream, |batches.value|, packed));
  }

  /** `_messages`: the spans of the whole messages. */
  method Frames(b: seq<Byte>) returns (spans: seq<Frame>)
    ensures spans == FramesFrom(b, 0)
  {
    spans := [];
    var offset: nat := 0;
    assert [] + FramesFrom(b, 0) == FramesFrom(b, 0);
    while offset + HEADER <= |b|
      invariant FramesFrom(b, 0) == spans + FramesFrom(b, offset)
      decreases |b| - offset
    {
      var f := Frame(offset, offset + U16At(b, offset + 16));
      if !Whole(b, f) {
        assert spans + [] == spans;
        return;
      }
      assert spans + ([f] + FramesFrom(b, f.end)) == (spans + [f]) + FramesFrom(b, f.end);
      spans, offset := spans + [f], f.end;
    }
    assert spans + [] == spans;
  }

  /** The attribute walk of `_nlri_spans`. */
  method WalkToReach(b: seq<Byte>, start: nat, end: nat) returns (r: Reach)
    ensures r == ReachAt(b, start, end)
  {
    hide HeadAt;
    var pos := start;
    while pos + 2 <= end
      invariant ReachAt(b, start, end) == ReachAt(b, pos, end)
      decreases end - pos
    {
      if pos + 2 > |b| {
        return Raises;
      }
      var h := HeadAt(b, pos);
      if h == None {
        return Raises;
      }
      if h.value.atype == MP_REACH {
        return Found(pos);
      }
      HeadMovesOn(b, pos);
      pos := h.value.start + h.value.len;
    }
    r := Absent;
  }
}
