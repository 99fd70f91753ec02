/**
  The host engine's NBT compound tags, reduced to what the modelled classes
  write and read: typed entries under string keys, nested compounds and lists.
  A missing or mistyped entry reads as the host's default (0, false, an
  empty compound, an empty list).
 */
module Nbt {

  /** A block position (the host's BlockPos) as three integer coordinates. */
  datatype Pos = Pos(x: int, y: int, z: int)

  datatype Tag =
    | IntTag(i: int)
    | ByteTag(b: int)
    | ListTag(elems: seq<Tag>)
    | CompoundTag(entries: map<string, Tag>)

  type Compound = map<string, Tag>

  /** Key under which a position's compound is stored inside a list element. */
  const TAG_POS: string := "pos"

  function PutInt(c: Compound, key: string, v: int): Compound
  {
    c[key := IntTag(v)]
  }

  /** Booleans are stored as a byte, 1 for true and 0 for false. */
  function PutBool(c: Compound, key: string, v: bool): Compound
  {
    c[key := ByteTag(if v then 1 else 0)]
  }

  function GetInt(c: Compound, key: string): int
  {
    if key in c && c[key].IntTag? then c[key].i else 0
  }

  function GetBool(c: Compound, key: string): bool
  {
    key in c && c[key].ByteTag? && c[key].b != 0
  }

  function GetCompound(c: Compound, key: string): Compound
  {
    if key in c && c[key].CompoundTag? then c[key].entries else map[]
  }

  /** The compounds of the list under `key`; empty unless every element is a compound. */
  function GetCompoundList(c: Compound, key: string): (r: seq<Compound>)
    ensures key in c && c[key].ListTag? && |r| > 0 ==> |r| == |c[key].elems|
  {
    if key in c && c[key].ListTag? && forall t <- c[key].elems :: t.CompoundTag?
    then Entries(c[key].elems)
    else []
  }

  function Entries(ts: seq<Tag>): (r: seq<Compound>)
    requires forall t <- ts :: t.CompoundTag?
    ensures |r| == |ts|
    ensures forall k :: 0 <= k < |ts| ==> r[k] == ts[k].entries
  {
    if ts == [] then [] else [ts[0].entries] + Entries(ts[1..])
  }

  /** A position written as a compound of its three coordinates. */
  function PosCompound(p: Pos): Compound
  {
    map["x" := IntTag(p.x), "y" := IntTag(p.y), "z" := IntTag(p.z)]
  }

  function WritePos(c: Compound, key: string, p: Pos): Compound
  {
    c[key := CompoundTag(PosCompound(p))]
  }

  function ReadPos(c: Compound, key: string): Pos
  {
    var p := GetCompound(c, key);
    Pos(GetInt(p, "x"), GetInt(p, "y"), GetInt(p, "z"))
  }

  lemma ReadWritePos(c: Compound, key: string, p: Pos)
    ensures ReadPos(WritePos(c, key, p), key) == p
  {
  }

  /** One element of a position list: a compound holding the position under TAG_POS. */
  function PosEntry(p: Pos): Tag
  {
    CompoundTag(WritePos(map[], TAG_POS, p))
  }

  function PosListTags(ps: seq<Pos>): (r: seq<Tag>)
    ensures |r| == |ps|
    ensures forall t <- r :: t.CompoundTag?
  {
    if ps == [] then [] else [PosEntry(ps[0])] + PosListTags(ps[1..])
  }

  function ReadPosList(cs: seq<Compound>): (r: seq<Pos>)
    ensures |r| == |cs|
  {
    if cs == [] then [] else [ReadPos(cs[0], TAG_POS)] + ReadPosList(cs[1..])
  }

  /** Appending one position appends one entry: the shape a writing loop builds. */
  lemma {:induction false} PosListTagsSnoc(ps: seq<Pos>, p: Pos)
    ensures PosListTags(ps + [p]) == PosListTags(ps) + [PosEntry(p)]
  {
    if ps != [] {
      assert (ps + [p])[1..] == ps[1..] + [p];
      PosListTagsSnoc(ps[1..], p);
    }
  }

  lemma {:induction false} ReadPosListSnoc(cs: seq<Compound>, c: Compound)
    ensures ReadPosList(cs + [c]) == ReadPosList(cs) + [ReadPos(c, TAG_POS)]
  {
    if cs != [] {
      assert (cs + [c])[1..] == cs[1..] + [c];
      ReadPosListSnoc(cs[1..], c);
    }
  }

  /** Reading back a written position list gives the list itself. */
  lemma {:induction false} PosListRoundTrip(ps: seq<Pos>)
    ensures ReadPosList(Entries(PosListTags(ps))) == ps
  {
    if ps != [] {
      var ts := PosListTags(ps);
      assert ts[1..] == PosListTags(ps[1..]);
      assert Entries(ts)[1..] == Entries(ts[1..]);
      ReadWritePos(map[], TAG_POS, ps[0]);
      PosListRoundTrip(ps[1..]);
    }
  }

  /** The host's writePosListToNBT: the positions as a list under `key`. */
  function WritePosList(c: Compound, key: string, ps: seq<Pos>): Compound
  {
    c[key := ListTag(PosListTags(ps))]
  }

  function ReadPosListTag(c: Compound, key: string): seq<Pos>
  {
    ReadPosList(GetCompoundList(c, key))
  }

  lemma PosListReadWrite(c: Compound, key: string, ps: seq<Pos>)
    ensures ReadPosListTag(WritePosList(c, key, ps), key) == ps
  {
    PosListRoundTrip(ps);
  }
}
