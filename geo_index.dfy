/** The Redis sorted set 'trips_geo_hash' that indexes every trip by its two
    end points, under the member names "{id}:start" and "{id}:end". */
module GeoIndex {
  import opened Common

  /** A position as GEOADD takes it: longitude first. */
  datatype Position = Position(lon: real, lat: real)

  const StartTag: string := "start"
  const EndTag: string := "end"

  /** The member name f"{trip_id}:{tag}". */
  function MemberName(id: nat, tag: string): string {
    NatToString(id) + ":" + tag
  }

  /** The text before the first ':' (all of it when there is none), which is
      what `name.split(':')[0]` keeps. */
  function IdPart(name: string): (r: string)
    ensures |r| <= |name| && r == name[..|r|]
    ensures ':' !in r
    ensures |r| < |name| ==> name[|r|] == ':'
    decreases |name|
  {
    if name == [] then []
    else if name[0] == ':' then []
    else [name[0]] + IdPart(name[1..])
  }

  /** Member names parse back to the trip id they were written for. */
  lemma MemberNameIdPart(id: nat, tag: string)
    ensures IdPart(MemberName(id, tag)) == NatToString(id)
    ensures ParseNat(IdPart(MemberName(id, tag))) == Some(id)
  {
    var digits := NatToString(id);
    var name := MemberName(id, tag);
    assert name[..|digits|] == digits;
    assert name[|digits|] == ':';
    ParseNatToString(id);
  }

  /** Member names of different trips differ. */
  lemma MemberNamesDiffer(a: nat, b: nat, tagA: string, tagB: string)
    requires a != b
    ensures MemberName(a, tagA) != MemberName(b, tagB)
  {
    MemberNameIdPart(a, tagA);
    MemberNameIdPart(b, tagB);
  }

  /** The index: each member name with its position. */
  class Index {
    var members: map<string, Position>

    constructor ()
      ensures members == map[]
    {
      members := map[];
    }

    /** GEOADD: adds the member, or moves it when it is already there. */
    method Add(name: string, pos: Position)
      modifies this
      ensures members == old(members)[name := pos]
    {
      members := members[name := pos];
    }

    /** ZREM: removes the member; removing an absent member changes nothing. */
    method Remove(name: string)
      modifies this
      ensures members == old(members) - {name}
    {
      members := members - {name};
    }
  }
}
