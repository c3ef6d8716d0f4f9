/**
 * Types shared by every part of the bridge: optional values, results,
 * the integer widths the Rust code uses, and the message a task hands to
 * the host's send callback.
 */
module Bridge {

  datatype Option<+T> = None | Some(value: T) {
    /** The wrapped value, or `default` for None (Rust's `unwrap_or`). */
    function GetOr(default: T): T {
      match this
      case Some(v) => v
      case None => default
    }
  }

  datatype Result<+T, +E> = Ok(value: T) | Err(error: E)

  const I64_MIN: int := -0x8000_0000_0000_0000
  const I64_MAX: int := 0x7FFF_FFFF_FFFF_FFFF

  type u8 = x: int | 0 <= x < 0x100
  type u32 = x: int | 0 <= x < 0x1_0000_0000
  type u64 = x: int | 0 <= x < 0x1_0000_0000_0000_0000
  type i64 = x: int | I64_MIN <= x <= I64_MAX

  /**
   * What a dispatch call returns to Lua: the session it will answer on, or
   * `(false, message)` when it refuses the request.
   */
  datatype Reply = Dispatched(session: i64) | Refused(message: string)

  const NO_RUNTIME: string := "No tokio runtime"

  /** The message type the host reserves for error payloads. */
  const PTYPE_ERROR: u8 := 4

  /**
   * One call of the host's send callback: message type, receiving service
   * (owner), correlation session and payload.
   */
  datatype Delivery<P> = Delivery(ptype: u8, owner: u32, session: i64, payload: P)

  /**
   * The map obtained by inserting `pairs` in order into an empty map, a
   * later insertion of a key replacing an earlier one (HashMap::insert,
   * HeaderMap::insert, lua_rawset).
   */
  function LastWins<K, V>(pairs: seq<(K, V)>): map<K, V>
  {
    if pairs == [] then map[]
    else LastWins(pairs[..|pairs| - 1])[pairs[|pairs| - 1].0 := pairs[|pairs| - 1].1]
  }

  /** Inserting one more pair. */
  lemma LastWinsSnoc<K, V>(pairs: seq<(K, V)>, p: (K, V))
    ensures LastWins(pairs + [p]) == LastWins(pairs)[p.0 := p.1]
  {
    assert (pairs + [p])[..|pairs|] == pairs;
  }

  /** Exactly the inserted keys are bound. */
  lemma {:induction false} LastWinsKeys<K, V>(pairs: seq<(K, V)>)
    ensures LastWins(pairs).Keys == set i | 0 <= i < |pairs| :: pairs[i].0
  {
    if pairs != [] {
      var init := pairs[..|pairs| - 1];
      LastWinsKeys(init);
      assert forall i | 0 <= i < |init| :: init[i] == pairs[i];
    }
  }

  /** A key is bound to the value of its last insertion. */
  lemma {:induction false} LastWinsAt<K, V>(pairs: seq<(K, V)>, i: nat)
    requires i < |pairs|
    requires forall j | i < j < |pairs| :: pairs[j].0 != pairs[i].0
    ensures pairs[i].0 in LastWins(pairs) && LastWins(pairs)[pairs[i].0] == pairs[i].1
  {
    if i < |pairs| - 1 {
      var init := pairs[..|pairs| - 1];
      assert init[i] == pairs[i];
      LastWinsAt(init, i);
    }
  }
}
