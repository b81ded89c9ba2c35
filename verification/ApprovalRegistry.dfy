/**
 * gmlbroker's approval state per channel. The approved flag is an object of its
 * own, shared with the channel's reader: it outlives the entry it was made for.
 */
module ApprovalRegistryModule {
  import opened MultiplexerModule

  class Flag {
    var value: bool

    constructor ()
      ensures !value
    {
      value := false;
    }
  }

  datatype Entry = Entry(approved: Flag, requestId: string)

  /** What the registry knows of a channel: is it approved, and which request is outstanding. */
  datatype Standing = Standing(approved: bool, requestId: string)

  /** An approval counts if and only if it names the outstanding request of a registered channel. */
  predicate Matching(standings: map<Channel, Standing>, channel: Channel, id: string) {
    channel in standings && standings[channel].requestId == id
  }

  function Approved(standings: map<Channel, Standing>, channel: Channel, id: string): map<Channel, Standing> {
    if Matching(standings, channel, id) then standings[channel := Standing(true, id)] else standings
  }

  function Requested(standings: map<Channel, Standing>, channel: Channel, id: string): map<Channel, Standing> {
    if channel in standings then standings[channel := standings[channel].(requestId := id)] else standings
  }

  class ApprovalRegistry {
    var entries: map<Channel, Entry>

    ghost function Flags(): set<Flag>
      reads this
    {
      set c | c in entries :: entries[c].approved
    }

    /** No two channels share a flag. */
    ghost predicate Valid()
      reads this
    {
      forall c, d :: c in entries && d in entries && c != d ==> entries[c].approved != entries[d].approved
    }

    ghost function Standings(): map<Channel, Standing>
      reads this, Flags()
    {
      map c | c in entries :: Standing(entries[c].approved.value, entries[c].requestId)
    }

    constructor ()
      ensures Valid() && entries == map[] && Standings() == map[]
    {
      entries := map[];
    }

    /** A new registration; a flag that someone still holds is left alone. */
    method Create(channel: Channel)
      requires Valid()
      modifies this
      ensures Valid() && Standings() == old(Standings())[channel := Standing(false, "")]
      ensures channel in entries && fresh(entries[channel].approved)
    {
      var flag := new Flag();
      entries := entries[channel := Entry(flag, "")];
    }

    method GetFlag(channel: Channel) returns (flag: Option<Flag>)
      ensures flag == if channel in entries then Some(entries[channel].approved) else None
    {
      return if channel in entries then Some(entries[channel].approved) else None;
    }

    method SetRequestId(channel: Channel, id: string)
      requires Valid()
      modifies this
      ensures Valid() && Standings() == Requested(old(Standings()), channel, id)
      ensures Flags() == old(Flags())
    {
      if channel in entries {
        entries := entries[channel := entries[channel].(requestId := id)];
        assert forall c :: c in entries ==> entries[c].approved == old(entries)[c].approved;
      }
    }

    method Approve(channel: Channel, id: string) returns (matched: bool)
      requires Valid()
      modifies if channel in entries then {entries[channel].approved} else {}
      ensures Valid() && entries == old(entries)
      ensures matched <==> Matching(old(Standings()), channel, id)
      ensures Standings() == Approved(old(Standings()), channel, id)
    {
      if channel !in entries || entries[channel].requestId != id {
        return false;
      }
      entries[channel].approved.value := true;
      return true;
    }

    method Matches(channel: Channel, id: string) returns (matched: bool)
      requires Valid()
      ensures matched <==> Matching(Standings(), channel, id)
    {
      return channel in entries && entries[channel].requestId == id;
    }

    method Remove(channel: Channel)
      requires Valid()
      modifies this
      ensures Valid() && Standings() == old(Standings()) - {channel}
    {
      entries := entries - {channel};
    }
  }
}
