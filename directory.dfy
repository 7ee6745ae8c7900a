/** The cached session directory: refreshed wholesale from the backend's listing and
    filtered locally when a session is deleted. */
module Directory {

  import opened Wrappers
  import opened Types

  /** `if (data.sessions) setSessions(data.sessions)`: a listing that carries sessions
      (even an empty list) replaces the cache; a missing one leaves it alone. */
  function Refreshed(cached: seq<Session>, listing: Option<seq<Session>>): (r: seq<Session>)
    ensures listing.Some? ==> r == listing.value
    ensures listing.None? ==> r == cached
  {
    if listing.Some? then listing.value else cached
  }

  /** `sessions.filter(s => s.id !== id)`: no entry with that id is left, and every other
      entry is kept. */
  function Without(sessions: seq<Session>, id: string): (r: seq<Session>)
    ensures |r| <= |sessions|
    ensures forall k | 0 <= k < |r| :: r[k].id != id && r[k] in sessions
    ensures forall s | s in sessions && s.id != id :: s in r
  {
    if sessions == [] then []
    else if sessions[0].id == id then Without(sessions[1..], id)
    else [sessions[0]] + Without(sessions[1..], id)
  }

  /** The filter distributes over concatenation: it keeps the entries it keeps in their
      original order. */
  lemma {:induction false} WithoutAppend(a: seq<Session>, b: seq<Session>, id: string)
    ensures Without(a + b, id) == Without(a, id) + Without(b, id)
  {
    if a == [] {
      assert a + b == b;
    } else {
      assert (a + b)[0] == a[0];
      assert (a + b)[1..] == a[1..] + b;
      WithoutAppend(a[1..], b, id);
    }
  }

  /** A list with no entry of that id is left exactly as it was. */
  lemma {:induction false} WithoutAbsent(sessions: seq<Session>, id: string)
    requires forall k | 0 <= k < |sessions| :: sessions[k].id != id
    ensures Without(sessions, id) == sessions
  {
    if sessions != [] {
      WithoutAbsent(sessions[1..], id);
    }
  }

  /** Deleting twice is deleting once. */
  lemma WithoutIdempotent(sessions: seq<Session>, id: string)
    ensures Without(Without(sessions, id), id) == Without(sessions, id)
  {
    WithoutAbsent(Without(sessions, id), id);
  }

  /** The number of entries removed is the number of entries with that id. */
  function CountId(sessions: seq<Session>, id: string): nat {
    if sessions == [] then 0
    else (if sessions[0].id == id then 1 else 0) + CountId(sessions[1..], id)
  }

  lemma {:induction false} WithoutLength(sessions: seq<Session>, id: string)
    ensures |Without(sessions, id)| == |sessions| - CountId(sessions, id)
  {
    if sessions != [] {
      WithoutLength(sessions[1..], id);
    }
  }
}
