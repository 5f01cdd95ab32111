/**
 Connection limits: a semaphore for the total and a count for each client address, updated
 by connections that interleave step by step.
 */
module Listener {

  const TWO_32: nat := 0x1_0000_0000

  /** An address; the halves of a version 6 address are its first and last eight octets. */
  datatype Ip = V4(bits: nat) | V6(high: nat, low: nat)

  /** `::ffff:a.b.c.d` */
  predicate IsMapped(ip: Ip) {
    ip.V6? && ip.high == 0 && ip.low / TWO_32 == 0xffff
  }

  /** The bucket a connection counts against: the address, or its /64. */
  function LimitKey(ip: Ip): Ip {
    if ip.V4? then ip
    else if IsMapped(ip) then V4(ip.low % TWO_32)
    else V6(ip.high, 0)
  }

  /** An IPv4 address is its own key, mapped or not, and other addresses share one exactly within a /64. */
  lemma LimitKeyMeans(ip: Ip, other: Ip, bits: nat)
    ensures LimitKey(V4(bits)) == V4(bits)
    ensures bits < TWO_32 ==> LimitKey(V6(0, 0xffff * TWO_32 + bits)) == V4(bits)
    ensures ip.V6? && !IsMapped(ip) ==> LimitKey(ip) == LimitKey(V6(ip.high, 0)) && LimitKey(ip) != V4(bits)
    ensures ip.V6? && other.V6? && !IsMapped(ip) && !IsMapped(other) ==>
              (LimitKey(ip) == LimitKey(other) <==> ip.high == other.high)
    ensures LimitKey(LimitKey(ip)) == LimitKey(ip)
  {
    assert 0 / TWO_32 == 0;
    assert bits < TWO_32 ==> (0xffff * TWO_32 + bits) / TWO_32 == 0xffff && (0xffff * TWO_32 + bits) % TWO_32 == bits;
  }

  /** Where a connection stands between its first step and its last. */
  datatype Stage = Reserved | Live(key: Ip) | Leaving

  ghost function LiveWith(stages: map<nat, Stage>, key: Ip): set<nat> {
    set id | id in stages && stages[id] == Live(key)
  }

  class ConnectionLimits {
    /** Zero means unlimited, for either limit. */
    const maxTotal: nat
    const perIpMax: nat
    var inUse: nat
    var perIp: map<Ip, nat>
    ghost var stages: map<nat, Stage>

    /** The semaphore counts the connections under way; each count is that of its live connections. */
    ghost predicate Valid()
      reads this
    {
      && (maxTotal > 0 ==> inUse == |stages| <= maxTotal)
      && (perIpMax == 0 ==> perIp == map[])
      && (perIpMax > 0 ==> forall k ::
            && (k in perIp <==> LiveWith(stages, k) != {})
            && (k in perIp ==> perIp[k] == |LiveWith(stages, k)| <= perIpMax))
    }

    constructor (total: nat, each: nat)
      ensures Valid() && stages == map[] && maxTotal == total && perIpMax == each
    {
      maxTotal, perIpMax, inUse, perIp, stages := total, each, 0, map[], map[];
    }

    // ----- the atomic steps, which may interleave in any order

    method ReserveTotal(ghost id: nat) returns (ok: bool)
      requires Valid() && id !in stages
      modifies this
      ensures Valid() && perIp == old(perIp)
      ensures ok <==> maxTotal == 0 || |old(stages)| < maxTotal
      ensures stages == if ok then old(stages)[id := Reserved] else old(stages)
      ensures !ok ==> inUse == old(inUse)
      ensures ok && maxTotal > 0 ==> inUse == old(inUse) + 1
      ensures ok && maxTotal == 0 ==> inUse == old(inUse)
    {
      if maxTotal > 0 && inUse >= maxTotal {
        return false;
      }
      if maxTotal > 0 {
        inUse := inUse + 1;
      }
      ReservesOne(stages, id);
      stages := stages[id := Reserved];
      return true;
    }

    method CountIp(ghost id: nat, ip: Ip) returns (ok: bool)
      requires Valid() && id in stages && stages[id] == Reserved
      modifies this
      ensures Valid() && inUse == old(inUse)
      ensures ok <==> perIpMax == 0 || |LiveWith(old(stages), LimitKey(ip))| < perIpMax
      ensures ok ==> stages == old(stages)[id := Live(LimitKey(ip))]
      ensures !ok ==> stages == old(stages) && perIp == old(perIp)
    {
      var key := LimitKey(ip);
      assert stages[id := Live(key)].Keys == stages.Keys;
      if perIpMax != 0 {
        var count := if key in perIp then perIp[key] else 0;
        if count >= perIpMax {
          return false;
        }
        GoesLive(stages, id, key);
        perIp := perIp[key := count + 1];
      }
      stages := stages[id := Live(key)];
      return true;
    }

    method UncountIp(ghost id: nat, key: Ip)
      requires Valid() && id in stages && stages[id] == Live(key)
      modifies this
      ensures Valid() && inUse == old(inUse) && stages == old(stages)[id := Leaving]
    {
      assert stages[id := Leaving].Keys == stages.Keys;
      if perIpMax != 0 {
        assert id in LiveWith(stages, key);
        GoesAway(stages, id, key);
        if key in perIp {
          if perIp[key] == 1 {
            perIp := perIp - {key};
          } else {
            perIp := perIp[key := perIp[key] - 1];
          }
        }
      }
      stages := stages[id := Leaving];
    }

    method ReleaseTotal(ghost id: nat)
      requires Valid() && id in stages && !stages[id].Live?
      modifies this
      ensures Valid() && perIp == old(perIp) && stages == old(stages) - {id}
      ensures inUse == if maxTotal > 0 then old(inUse) - 1 else old(inUse)
    {
      assert id in stages.Keys;
      assert (stages - {id}).Keys == stages.Keys - {id};
      if maxTotal > 0 {
        inUse := inUse - 1;
      }
      forall k ensures LiveWith(stages - {id}, k) == LiveWith(stages, k) {
      }
      stages := stages - {id};
    }

    // ----- the two calls

    /** A permit, or nothing at all: a refused acquire leaves every count as it was. */
    method TryAcquire(ghost id: nat, ip: Ip) returns (ok: bool)
      requires Valid() && id !in stages
      modifies this
      ensures Valid()
      ensures ok <==>
                && (maxTotal == 0 || |old(stages)| < maxTotal)
                && (perIpMax == 0 || |LiveWith(old(stages), LimitKey(ip))| < perIpMax)
      ensures ok ==> stages == old(stages)[id := Live(LimitKey(ip))]
      ensures !ok ==> stages == old(stages) && perIp == old(perIp) && inUse == old(inUse)
    {
      ghost var before := stages;
      ok := ReserveTotal(id);
      if ok {
        SameLive(before, id, Reserved);
        ok := CountIp(id, ip);
        if !ok {
          ReleaseTotal(id);
          assert before[id := Reserved] - {id} == before;
        }
      }
    }

    /** Dropping the permit undoes the acquire. */
    method Drop(ghost id: nat, key: Ip)
      requires Valid() && id in stages && stages[id] == Live(key)
      modifies this
      ensures Valid() && stages == old(stages) - {id}
    {
      UncountIp(id, key);
      ReleaseTotal(id);
    }
  }

  lemma SameLive(stages: map<nat, Stage>, id: nat, s: Stage)
    requires (id in stages ==> !stages[id].Live?) && !s.Live?
    ensures forall k :: LiveWith(stages[id := s], k) == LiveWith(stages, k)
  {
  }

  lemma ReservesOne(stages: map<nat, Stage>, id: nat)
    requires id !in stages
    ensures |stages[id := Reserved]| == |stages| + 1
    ensures forall k :: LiveWith(stages[id := Reserved], k) == LiveWith(stages, k)
  {
    SameLive(stages, id, Reserved);
    assert stages[id := Reserved].Keys == stages.Keys + {id};
  }

  lemma GoesLive(stages: map<nat, Stage>, id: nat, key: Ip)
    requires id in stages && stages[id] == Reserved
    ensures LiveWith(stages[id := Live(key)], key) == LiveWith(stages, key) + {id}
    ensures |LiveWith(stages[id := Live(key)], key)| == |LiveWith(stages, key)| + 1
    ensures forall k | k != key :: LiveWith(stages[id := Live(key)], k) == LiveWith(stages, k)
  {
    assert LiveWith(stages[id := Live(key)], key) == LiveWith(stages, key) + {id};
  }

  lemma GoesAway(stages: map<nat, Stage>, id: nat, key: Ip)
    requires id in stages && stages[id] == Live(key)
    ensures LiveWith(stages[id := Leaving], key) == LiveWith(stages, key) - {id}
    ensures |LiveWith(stages[id := Leaving], key)| == |LiveWith(stages, key)| - 1
    ensures forall k | k != key :: LiveWith(stages[id := Leaving], k) == LiveWith(stages, k)
  {
    assert id in LiveWith(stages, key);
    assert LiveWith(stages[id := Leaving], key) == LiveWith(stages, key) - {id};
  }
}
