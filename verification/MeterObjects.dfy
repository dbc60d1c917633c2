/**
  The mutable session, resource meter and chronicler
  (libraries/chain/session.cpp, libraries/chain/resource_meter.cpp,
  libraries/chain/chronicler.cpp). A thrown exception is a returned error; the
  contracts say that an error leaves every counter as it was.
*/
module MeterObjects {
  import opened Int64
  import opened Metering

  const U32_SIZE: int := 0x1_0000_0000

  datatype Event = Event(sequence: nat, source: string, name: string)

  class Session {
    const beginRc: i64
    var endRc: i64
    var events: seq<Event>
    var logs: seq<string>

    constructor (rc: i64)
      ensures Value() == RcSession(rc, rc) && events == [] && logs == []
    {
      beginRc, endRc, events, logs := rc, rc, [], [];
    }

    ghost function Value(): RcSession
      reads this`endRc
    {
      RcSession(beginRc, endRc)
    }

    method UseRc(rc: i64) returns (error: Option<Error>)
      modifies this`endRc
      ensures match Metering.UseRc(old(Value()), rc)
              case Ok(s) => error == None && Value() == s
              case Err(e) => error == Some(e) && Value() == old(Value())
    {
      if rc > endRc {
        return Some(InsufficientRc);
      }
      endRc := ToI64(endRc - rc);
      return None;
    }

    method RemainingRc() returns (rc: u64)
      ensures rc == Metering.RemainingRc(Value())
    {
      rc := ToU64(if beginRc < endRc then beginRc else endRc);
    }
  }

  class ResourceMeter {
    var limits: Limits
    var disk: u64
    var network: u64
    var compute: u64
    var sysDisk: i64
    var sysNetwork: i64
    var sysCompute: i64
    var session: Session?

    constructor ()
      ensures Value() == Fresh(Limits(U64_SIZE - 1, U64_SIZE - 1, U64_SIZE - 1, 0, 0, 0))
    {
      limits := Limits(U64_SIZE - 1, U64_SIZE - 1, U64_SIZE - 1, 0, 0, 0);
      disk, network, compute := U64_SIZE - 1, U64_SIZE - 1, U64_SIZE - 1;
      sysDisk, sysNetwork, sysCompute := 0, 0, 0;
      session := null;
    }

    ghost function Value(): Meter
      reads this, session
    {
      Meter(limits, disk, network, compute, sysDisk, sysNetwork, sysCompute,
            if session == null then None else Some(session.Value()))
    }

    /** The live session, as a frame. */
    ghost function Live(): set<Session>
      reads this`session
    {
      if session == null then {} else {session}
    }

    method SetResourceLimitData(rld: Limits)
      modifies this
      ensures session == old(session)
      ensures Value() == Fresh(rld).(session := old(Value()).session)
    {
      limits := rld;
      disk, sysDisk := rld.disk, 0;
      network, sysNetwork := rld.network, 0;
      compute, sysCompute := rld.compute, 0;
    }

    /** The branch the three `use_*` methods share: bill the live session, if any. */
    method Bill(amount: i64, cost: u64) returns (error: Option<Error>)
      modifies Live()`endRc
      ensures match ChargeSession(old(Value()).session, amount, cost)
              case Ok(s) => error == None && Value() == old(Value()).(session := s)
              case Err(e) => error == Some(e) && Value() == old(Value())
    {
      if session == null {
        return None;
      }
      var rcCost: int := amount * cost;
      if rcCost > I64_MAX {
        return Some(RcOverflow);
      }
      error := session.UseRc(Narrow(rcCost));
    }

    method UseDiskStorage(bytes: i64) returns (error: Option<Error>)
      modifies this`disk, this`sysDisk, Live()`endRc
      ensures match UseDisk(old(Value()), bytes)
              case Ok(m) => error == None && Value() == m
              case Err(e) => error == Some(e) && Value() == old(Value())
    {
      if bytes > ToI64(disk) {
        return Some(DiskLimitExceeded);
      }
      error := Bill(bytes, limits.diskCost);
      if error.Some? {
        return;
      }
      if session == null {
        sysDisk := ToI64(sysDisk + bytes);
      }
      if bytes >= 0 {
        disk := ToU64(disk - bytes);
      } else {
        assert ToU64(-1 * bytes) == -1 * bytes;
        disk := ToU64(disk + ToU64(-1 * bytes));
      }
    }

    method UseNetworkBandwidth(bytes: i64) returns (error: Option<Error>)
      modifies this`network, this`sysNetwork, Live()`endRc
      ensures match UseNetwork(old(Value()), bytes)
              case Ok(m) => error == None && Value() == m
              case Err(e) => error == Some(e) && Value() == old(Value())
    {
      if ToU64(bytes) > network {
        return Some(NetworkLimitExceeded);
      }
      if bytes < 0 {
        return Some(NetworkLimitExceeded);
      }
      error := Bill(bytes, limits.networkCost);
      if error.Some? {
        return;
      }
      if session == null {
        sysNetwork := ToI64(sysNetwork + bytes);
      }
      network := network - bytes;
    }

    method UseComputeBandwidth(ticks: i64) returns (error: Option<Error>)
      modifies this`compute, this`sysCompute, Live()`endRc
      ensures match UseCompute(old(Value()), ticks)
              case Ok(m) => error == None && Value() == m
              case Err(e) => error == Some(e) && Value() == old(Value())
    {
      if ToU64(ticks) > compute {
        return Some(ComputeLimitExceeded);
      }
      if ticks < 0 {
        return Some(ComputeLimitExceeded);
      }
      error := Bill(ticks, limits.computeCost);
      if error.Some? {
        return;
      }
      if session == null {
        sysCompute := ToI64(sysCompute + ticks);
      }
      compute := compute - ticks;
    }

    method ComputeBandwidthRemaining() returns (left: u64)
      ensures left == ComputeRemaining(Value())
    {
      left := compute;
      if session != null && limits.computeCost > 0 {
        var rc := session.RemainingRc();
        left := Min(rc / limits.computeCost, compute);
      }
    }

    /** host_api::use_meter_ticks */
    method ReportTicks(ticks: u64) returns (error: Option<Error>)
      modifies this`compute, this`sysCompute, Live()`endRc
      ensures (error, Value()) == UseMeterTicks(old(Value()), ticks)
    {
      var left := ComputeBandwidthRemaining();
      if ticks > left {
        error := UseComputeBandwidth(ToI64(left));
        if error.Some? {
          return;
        }
        error := UseComputeBandwidth(1);
      } else {
        error := UseComputeBandwidth(ToI64(ticks));
      }
    }
  }

  /** Events carry the transaction they were emitted in, if any. */
  datatype Entry = Entry(trx: Option<string>, event: Event)

  class Chronicler {
    var session: Session?
    var events: seq<Entry>
    var logs: seq<string>
    var seqNo: nat

    constructor ()
      ensures session == null && events == [] && logs == [] && Valid()
    {
      session, events, logs, seqNo := null, [], [], 0;
    }

    /** The next sequence number is the number of events so far, in 32 bits. */
    ghost predicate Valid()
      reads this
    {
      && seqNo == |events| % U32_SIZE
      && forall i :: 0 <= i < |events| ==> events[i].event.sequence == i % U32_SIZE
    }

    /** The live session, as a frame. */
    ghost function Live(): set<Session>
      reads this`session
    {
      if session == null then {} else {session}
    }

    method PushEvent(trx: Option<string>, source: string, name: string)
      requires Valid()
      modifies this`events, this`seqNo, Live()`events
      ensures Valid()
      ensures |events| == |old(events)| + 1 && events[..|old(events)|] == old(events)
      ensures events[|old(events)|] == Entry(trx, Event(|old(events)| % U32_SIZE, source, name))
      ensures session != null ==> session.events == old(session.events) + [events[|old(events)|].event]
    {
      var ev := Event(seqNo, source, name);
      if session != null {
        session.events := session.events + [ev];
      }
      events := events + [Entry(trx, ev)];
      seqNo := (seqNo + 1) % U32_SIZE;
    }

    /** A live session takes the log entry instead of the chronicler. */
    method PushLog(message: string)
      modifies this`logs, Live()`logs
      ensures session != null ==> session.logs == old(session.logs) + [message] && logs == old(logs)
      ensures session == null ==> logs == old(logs) + [message]
    {
      if session != null {
        session.logs := session.logs + [message];
      } else {
        logs := logs + [message];
      }
    }
  }
}
