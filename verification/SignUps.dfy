/** The limit on sign-ups: at most so many in any hour, over all and from one address. */
module SignUps {
  // Nanoseconds.
  type Time = int

  const PER_ADDRESS: nat := 5
  const IN_ALL: nat := 50
  const WINDOW: Time := 3_600_000_000_000

  function After(times: seq<Time>, cutoff: Time): seq<Time> {
    if times == [] then []
    else After(times[..|times| - 1], cutoff) + if times[|times| - 1] > cutoff then [times[|times| - 1]] else []
  }

  function ListOf(perAddress: map<string, seq<Time>>, address: string): seq<Time> {
    if address in perAddress then perAddress[address] else []
  }

  datatype Log = Log(recent: seq<Time>, perAddress: map<string, seq<Time>>)

  function Expired(log: Log, cutoff: Time): Log {
    Log(After(log.recent, cutoff),
        map a | a in log.perAddress && After(log.perAddress[a], cutoff) != [] :: After(log.perAddress[a], cutoff))
  }

  function OneExpired(log: Log, a: string, cutoff: Time): Log
    requires a in log.perAddress
  {
    var kept := After(log.perAddress[a], cutoff);
    log.(perAddress := if kept == [] then log.perAddress - {a} else log.perAddress[a := kept])
  }

  // The log with all but some addresses looked through.
  function PartlyExpired(log: Log, todo: set<string>, cutoff: Time): Log {
    Log(After(log.recent, cutoff),
        map a | a in log.perAddress && (a in todo || After(log.perAddress[a], cutoff) != []) ::
          if a in todo then log.perAddress[a] else After(log.perAddress[a], cutoff))
  }

  lemma NextExpired(log: Log, todo: set<string>, a: string, cutoff: Time)
    requires a in todo && a in log.perAddress
    ensures OneExpired(PartlyExpired(log, todo, cutoff), a, cutoff) == PartlyExpired(log, todo - {a}, cutoff)
  {
  }

  lemma ExpiredInTurn(log: Log, cutoff: Time)
    ensures PartlyExpired(log, log.perAddress.Keys, cutoff) == log.(recent := After(log.recent, cutoff))
    ensures PartlyExpired(log, {}, cutoff) == Expired(log, cutoff)
  {
  }

  lemma ListExpired(log: Log, address: string, cutoff: Time)
    ensures ListOf(Expired(log, cutoff).perAddress, address) == After(ListOf(log.perAddress, address), cutoff)
  {
  }

  function Counted(log: Log, address: string, now: Time): Log {
    Log(log.recent + [now], log.perAddress[address := ListOf(log.perAddress, address) + [now]])
  }

  predicate Admits(log: Log, address: string, now: Time) {
    && |After(log.recent, now - WINDOW)| < IN_ALL
    && |After(ListOf(log.perAddress, address), now - WINDOW)| < PER_ADDRESS
  }

  function Allowed(log: Log, address: string, now: Time): Log {
    var kept := Expired(log, now - WINDOW);
    if Admits(log, address, now) then Counted(kept, address, now) else kept
  }

  /** A slice: the used part of an array, which appending may replace by a larger one. */
  datatype Slice = Slice(data: array<Time>, used: nat)

  // Keeps the times after the cutoff, in place.
  method Within(times: Slice, cutoff: Time) returns (kept: Slice)
    requires times.used <= times.data.Length
    modifies times.data
    ensures kept.data == times.data && kept.used <= kept.data.Length
    ensures kept.data[..kept.used] == After(old(times.data[..times.used]), cutoff)
  {
    ghost var before := times.data[..times.used];
    var data, used := times.data, 0;
    assert data[..0] == [];
    for i := 0 to times.used
      invariant used <= i && data == times.data
      invariant data[..used] == After(before[..i], cutoff)
      invariant data[i..times.used] == before[i..]
    {
      assert before[..i + 1][..i] == before[..i] && data[i] == data[i..times.used][0] == before[i];
      if data[i] > cutoff {
        data[used] := data[i];
        used := used + 1;
      }
    }
    assert before[..times.used] == before;
    kept := Slice(data, used);
  }

  method Append(times: Slice, at: Time) returns (longer: Slice)
    requires times.used <= times.data.Length
    modifies times.data
    ensures longer.data == times.data || fresh(longer.data)
    ensures longer.used <= longer.data.Length && longer.data[..longer.used] == old(times.data[..times.used]) + [at]
  {
    var data := times.data;
    if times.used == data.Length {
      data := new Time[2 * times.used + 1];
      for i := 0 to times.used
        invariant times.used == times.data.Length < data.Length && fresh(data)
        invariant data[..i] == times.data[..i] && times.data[..] == old(times.data[..])
      {
        data[i] := times.data[i];
      }
    }
    data[times.used] := at;
    longer := Slice(data, times.used + 1);
  }

  class Server {
    var recent: Slice
    var perAddress: map<string, Slice>
    ghost var log: Log
    ghost var owner: map<object, string>
    ghost var Repr: set<object>

    // The log is what the slices hold, and each array belongs to one of them.
    ghost predicate Valid()
      reads this, Repr
    {
      && this in Repr && recent.data in Repr && recent.used <= recent.data.Length && recent.data[..recent.used] == log.recent
      && owner.Keys <= Repr && recent.data !in owner
      && perAddress.Keys == log.perAddress.Keys
      && forall a :: a in perAddress ==>
        && perAddress[a].data in owner && owner[perAddress[a].data] == a
        && perAddress[a].used <= perAddress[a].data.Length
        && perAddress[a].data[..perAddress[a].used] == log.perAddress[a]
    }

    constructor ()
      ensures Valid() && fresh(Repr) && log == Log([], map[])
    {
      var data := new Time[0];
      recent := Slice(data, 0);
      perAddress := map[];
      log, owner := Log([], map[]), map[];
      Repr := {this, data};
    }

    method ExpireRecent(cutoff: Time)
      requires Valid()
      modifies this`log, this`recent, recent.data
      ensures Valid() && log == old(log).(recent := After(old(log).recent, cutoff))
    {
      recent := Within(recent, cutoff);
      log := log.(recent := After(log.recent, cutoff));
    }

    method ExpireAddress(address: string, cutoff: Time)
      requires Valid() && address in perAddress
      modifies this`log, this`perAddress, perAddress[address].data
      ensures Valid() && log == OneExpired(old(log), address, cutoff)
    {
      var kept := Within(perAddress[address], cutoff);
      if kept.used > 0 {
        perAddress := perAddress[address := kept];
      } else {
        perAddress := perAddress - {address};
      }
      log := OneExpired(log, address, cutoff);
    }

    // Forgets the times that left the window, and the addresses with none left.
    method Expire(cutoff: Time)
      requires Valid()
      modifies Repr
      ensures Valid() && Repr == old(Repr) && log == Expired(old(log), cutoff)
    {
      ghost var before := log;
      ExpiredInTurn(before, cutoff);
      ExpireRecent(cutoff);
      var todo := perAddress.Keys;
      while todo != {}
        invariant Valid() && Repr == old(Repr) && todo <= before.perAddress.Keys
        invariant log == PartlyExpired(before, todo, cutoff)
        decreases todo
      {
        var a :| a in todo;
        ExpireAddress(a, cutoff);
        NextExpired(before, todo, a, cutoff);
        todo := todo - {a};
      }
    }

    method AppendRecent(now: Time)
      requires Valid()
      modifies this`log, this`recent, this`Repr, recent.data
      ensures Valid() && fresh(Repr - old(Repr)) && log == old(log).(recent := old(log).recent + [now])
    {
      recent := Append(recent, now);
      Repr := Repr + {recent.data};
      log := log.(recent := log.recent + [now]);
    }

    method AppendKnown(address: string, now: Time)
      requires Valid() && address in perAddress
      modifies this`log, this`perAddress, this`owner, this`Repr, perAddress[address].data
      ensures Valid() && fresh(Repr - old(Repr))
      ensures log == old(log).(perAddress := old(log).perAddress[address := old(log).perAddress[address] + [now]])
    {
      var times := Append(perAddress[address], now);
      perAddress := perAddress[address := times];
      Repr, owner := Repr + {times.data}, owner[times.data := address];
      log := log.(perAddress := log.perAddress[address := log.perAddress[address] + [now]]);
    }

    method AppendNew(address: string, now: Time)
      requires Valid() && address !in perAddress
      modifies this`log, this`perAddress, this`owner, this`Repr
      ensures Valid() && fresh(Repr - old(Repr))
      ensures log == old(log).(perAddress := old(log).perAddress[address := [now]])
    {
      var data := new Time[1];
      data[0] := now;
      perAddress := perAddress[address := Slice(data, 1)];
      Repr, owner := Repr + {data}, owner[data := address];
      log := log.(perAddress := log.perAddress[address := [now]]);
    }

    method Record(address: string, now: Time)
      requires Valid()
      modifies Repr
      ensures Valid() && fresh(Repr - old(Repr)) && log == Counted(old(log), address, now)
    {
      assert address !in log.perAddress ==> ListOf(log.perAddress, address) + [now] == [now];
      AppendRecent(now);
      if address in perAddress {
        AppendKnown(address, now);
      } else {
        AppendNew(address, now);
      }
    }

    /** Whether a sign-up from an address may go on now; one that may is counted. */
    method Allow(address: string, now: Time) returns (allowed: bool)
      requires Valid()
      modifies Repr
      ensures Valid() && fresh(Repr - old(Repr))
      ensures allowed == Admits(old(log), address, now)
      ensures log == Allowed(old(log), address, now)
    {
      ListExpired(log, address, now - WINDOW);
      Expire(now - WINDOW);
      var fromAddress := 0;
      if address in perAddress { fromAddress := perAddress[address].used; }
      assert fromAddress == |ListOf(log.perAddress, address)|;
      if recent.used >= IN_ALL || fromAddress >= PER_ADDRESS { return false; }
      Record(address, now);
      return true;
    }
  }
}
