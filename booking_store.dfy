/**
 * The booking table as the meeting managers see it: the metadata column of
 * each booking, keyed by booking uid (app/adapters/db.py).
 */
module BookingStore {
  import opened Wrappers
  import opened Dtos

  /** A database call, in the order the managers issue them. */
  datatype StoreOp =
    | ReadMetadata(uid: string)
    | ReadBooking(uid: string)
    | WriteVideoUrl(uid: string, url: string)

  /** A metadata value counts as synced when it is present and not `{}`. */
  predicate Synced(m: Option<Metadata>) {
    m.Some? && |m.value| > 0
  }

  /**
   * `COALESCE(metadata, '{}') || {videoCallUrl: url}` on the row `uid`; a
   * missing row is left alone.
   */
  function WithVideoUrl(rows: map<string, Option<Metadata>>, uid: string, url: string): (r: map<string, Option<Metadata>>)
    ensures r.Keys == rows.Keys
    ensures uid !in rows ==> r == rows
    ensures forall other :: other in rows && other != uid ==> r[other] == rows[other]
  {
    if uid in rows then rows[uid := Some(rows[uid].GetOr(map[])["videoCallUrl" := url])] else rows
  }

  /**
   * The write sets `videoCallUrl` of that row and keeps its other keys and
   * every other row.
   */
  lemma VideoUrlKeepsOtherKeys(rows: map<string, Option<Metadata>>, uid: string, url: string)
    requires uid in rows
    ensures var r := WithVideoUrl(rows, uid, url);
      && r[uid].Some? && "videoCallUrl" in r[uid].value && r[uid].value["videoCallUrl"] == url
      && (rows[uid].Some? ==> forall k :: k in rows[uid].value && k != "videoCallUrl" ==>
            k in r[uid].value && r[uid].value[k] == rows[uid].value[k])
      && (forall other :: other in rows && other != uid ==> r[other] == rows[other])
  {
  }

  class Store {
    /** The metadata column by booking uid; `None` is SQL NULL. */
    var rows: map<string, Option<Metadata>>
    var ops: seq<StoreOp>

    constructor (rows: map<string, Option<Metadata>>)
      ensures this.rows == rows && ops == []
    {
      this.rows := rows;
      ops := [];
    }

    /** `get_booking_metadata`: `None` for a missing row or a falsy column. */
    method GetBookingMetadata(uid: string) returns (m: Option<Metadata>)
      modifies this`ops
      ensures ops == old(ops) + [ReadMetadata(uid)]
      ensures m.Some? <==> uid in rows && Synced(rows[uid])
      ensures m.Some? ==> m == rows[uid]
    {
      ops := ops + [ReadMetadata(uid)];
      if uid in rows && Synced(rows[uid]) {
        m := rows[uid];
      } else {
        m := None;
      }
    }

    /** `get_booking`, reduced to what the metadata check reads: `None` for a missing row. */
    method GetBooking(uid: string) returns (b: Option<Option<Metadata>>)
      modifies this`ops
      ensures ops == old(ops) + [ReadBooking(uid)]
      ensures b == if uid in rows then Some(rows[uid]) else None
    {
      ops := ops + [ReadBooking(uid)];
      b := if uid in rows then Some(rows[uid]) else None;
    }

    /** `update_booking_video_url`. */
    method UpdateBookingVideoUrl(uid: string, url: string)
      modifies this`rows, this`ops
      ensures rows == WithVideoUrl(old(rows), uid, url)
      ensures ops == old(ops) + [WriteVideoUrl(uid, url)]
    {
      rows := WithVideoUrl(rows, uid, url);
      ops := ops + [WriteVideoUrl(uid, url)];
    }
  }
}
