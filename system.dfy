/**
 * `is_first_run` (app/system.py): whether the bot process starts for the
 * first time under its parent, judged by the parent pid stored in Redis
 * under `tg_bot_ppid`.
 */
module FirstRun {
  import opened Wrappers
  import opened Text
  import opened KeyValue

  const PpidKey := "tg_bot_ppid"

  /** True, false, or the ValueError `int()` raises on a stored value that is not a number. */
  datatype Verdict = FirstRun | NotFirstRun | ValueError

  /** The decision on the stored value alone. */
  function Judge(stored: Option<string>, ppid: int): (v: Verdict)
    ensures v == NotFirstRun <==> stored.Some? && ParseInt(stored.value) == Some(ppid)
    ensures v == ValueError <==> stored.Some? && Truthy(stored.value) && ParseInt(stored.value).None?
  {
    if stored.Some? && Truthy(stored.value) then
      match ParseInt(stored.value)
      case None => ValueError
      case Some(n) => if n == ppid then NotFirstRun else FirstRun
    else FirstRun
  }

  /**
   * The stored pid reads back: after a run that answered, the next run
   * under the same parent answers that it is not the first.
   */
  lemma SecondRunIsNotFirst(ppid: int)
    ensures Judge(Some(IntToString(ppid)), ppid) == NotFirstRun
  {
    ParseIntOfIntToString(ppid);
  }

  /**
   * `is_first_run` against the store at time `now`. Only a first run
   * writes, and it writes the parent pid without expiry.
   */
  method IsFirstRun(redis: KeyValueStore, ppid: int, now: int) returns (r: Result<bool, string>)
    modifies redis`entries
    ensures var v := Judge(Lookup(old(redis.entries), PpidKey, now), ppid);
      && (r == Ok(false) <==> v == NotFirstRun)
      && (r == Ok(true) <==> v == FirstRun)
      && (r.Err? <==> v == ValueError)
      && redis.entries == (if v == FirstRun then old(redis.entries)[PpidKey := Written(IntToString(ppid), None, now)]
                           else old(redis.entries))
    ensures r.Ok? ==> Judge(Lookup(redis.entries, PpidKey, now), ppid) == NotFirstRun
  {
    var saved := redis.Get(PpidKey, now);
    if saved.Some? && Truthy(saved.value) {
      var n := ParseInt(saved.value);
      if n.None? {
        return Err("ValueError");
      }
      if n.value == ppid {
        return Ok(false);
      }
    }
    redis.Set(PpidKey, IntToString(ppid), None, now);
    SecondRunIsNotFirst(ppid);
    r := Ok(true);
  }
}
