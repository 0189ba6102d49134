/**
 * Lookups in the users table. The table is a sequence of rows in the order
 * the database returns them; `fetch_one` takes the first matching row.
 */
module Users {
  import opened Wrappers
  import opened Dtos

  /** A row that may receive Telegram notifications for `email`. */
  predicate Notifiable(u: User, email: string) {
    !u.locked && u.email == email && u.telegramChatId.Some?
  }

  /** Row `i` is the first notifiable row for `email`. */
  predicate FirstNotifiable(users: seq<User>, email: string, i: int) {
    && 0 <= i < |users|
    && Notifiable(users[i], email)
    && forall j :: 0 <= j < i ==> !Notifiable(users[j], email)
  }

  /**
   * `get_organizer_chat_id`: the chat id of the first unlocked row with this
   * email and a non-null chat id.
   */
  function OrganizerChatId(users: seq<User>, email: string): (r: Option<int>)
    ensures r.None? <==> forall i :: 0 <= i < |users| ==> !Notifiable(users[i], email)
    ensures r.Some? ==> exists i :: FirstNotifiable(users, email, i) && users[i].telegramChatId == r
  {
    if |users| == 0 then None
    else if Notifiable(users[0], email) then users[0].telegramChatId
    else
      var r := OrganizerChatId(users[1..], email);
      assert forall i :: 1 <= i < |users| ==> users[i] == users[1..][i - 1];
      if r.Some? then
        var k :| FirstNotifiable(users[1..], email, k) && users[1..][k].telegramChatId == r;
        assert FirstNotifiable(users, email, k + 1);
        r
      else r
  }

  /** Row `i` is the first row with this email. */
  predicate FirstWithEmail(users: seq<User>, email: string, i: int) {
    && 0 <= i < |users|
    && users[i].email == email
    && forall j :: 0 <= j < i ==> users[j].email != email
  }

  /** `get_user(email)`: the first row with this email, locked or not. */
  function UserByEmail(users: seq<User>, email: string): (r: Option<User>)
    ensures r.None? <==> forall i :: 0 <= i < |users| ==> users[i].email != email
    ensures r.Some? ==> exists i :: FirstWithEmail(users, email, i) && users[i] == r.value
  {
    if |users| == 0 then None
    else if users[0].email == email then
      assert FirstWithEmail(users, email, 0);
      Some(users[0])
    else
      var r := UserByEmail(users[1..], email);
      assert forall i :: 1 <= i < |users| ==> users[i] == users[1..][i - 1];
      if r.Some? then
        var k :| FirstWithEmail(users[1..], email, k) && users[1..][k] == r.value;
        assert FirstWithEmail(users, email, k + 1);
        r
      else r
  }
}
