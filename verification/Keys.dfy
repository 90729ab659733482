/** The order idempotency key as the string it is, and why a (session, key) pair may stand for it. */
module Keys {
  import opened Domain

  function Composed(sid: SessionId, key: string): string { "checkout:" + sid + ":" + key }

  /**
   * Session ids carry no colon (they are UUIDs), so no two pairs compose to one string, whatever the caller's key
   * holds.
   */
  lemma {:induction false} ComposedInjective(sid: SessionId, key: string, sid': SessionId, key': string)
    requires ':' !in sid && ':' !in sid' && Composed(sid, key) == Composed(sid', key')
    ensures sid == sid' && key == key'
  {
    var p := |"checkout:"|;
    var a, b := Composed(sid, key), Composed(sid', key');
    assert a[p..] == sid + ":" + key && b[p..] == sid' + ":" + key';
    FirstColon(sid, key, sid', key');
  }

  lemma {:induction false} FirstColon(sid: SessionId, key: string, sid': SessionId, key': string)
    requires ':' !in sid && ':' !in sid' && sid + ":" + key == sid' + ":" + key'
    ensures sid == sid' && key == key'
  {
    var a, b := sid + ":" + key, sid' + ":" + key';
    assert a[0] == if sid == [] then ':' else sid[0];
    assert b[0] == if sid' == [] then ':' else sid'[0];
    if sid == [] {
      assert a[1..] == key && b[1..] == key';
    } else {
      assert a[1..] == sid[1..] + ":" + key && b[1..] == sid'[1..] + ":" + key';
      FirstColon(sid[1..], key, sid'[1..], key');
      assert sid == [sid[0]] + sid[1..] && sid' == [sid'[0]] + sid'[1..];
    }
  }

  /** Without that, two sessions could share one order. */
  lemma ColonCollides()
    ensures Composed("a:b", "c") == Composed("a", "b:c")
  {
  }
}
