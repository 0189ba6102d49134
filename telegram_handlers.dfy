/**
 * The Telegram bot's message handlers (app/handlers/messages.py): the
 * deep-link `/start` registration that links a user row to the chat, the
 * `/id` command and the ping reply. The users table and the answers the
 * bot sends are the handlers' state.
 */
module TelegramHandlers {
  import opened Wrappers
  import opened Text
  import opened Dtos

  const RegistrationError := "Ошибка регистрации. Обратитесь к администратору"
  const AlreadyRegisteredText := "Ваш email уже зарегистрирован"
  const WelcomePrefix := "Добро пожаловать, "

  /** A message the bot sends to a chat. */
  datatype Answer = Answer(chatId: int, text: string)

  /**
   * `user_id, telegram_token = decode_payload(args).split("@")` and
   * `int(user_id)`: the decoded payload must split into exactly two parts
   * and the first must be an integer. `decode` is aiogram's payload
   * decoding, `None` where it raises.
   */
  function ParsePayload(args: string, decode: string -> Option<string>): (p: Option<(int, string)>)
    ensures decode(args).None? ==> p.None?
  {
    var decoded := decode(args);
    if decoded.None? then None
    else
      var parts := Split(decoded.value, '@');
      if |parts| != 2 then None
      else
        var id := ParseInt(parts[0]);
        if id.None? then None else Some((id.value, parts[1]))
  }

  /** A decoded payload without exactly one '@' is refused. */
  lemma PayloadNeedsOneSeparator(args: string, decode: string -> Option<string>)
    requires decode(args).Some? && Count(decode(args).value, '@') != 1
    ensures ParsePayload(args, decode).None?
  {
  }

  /** A payload made of a user id and a token without '@' parses back into both. */
  lemma ParsePayloadOfLink(args: string, decode: string -> Option<string>, userId: int, token: string)
    requires '@' !in token
    requires decode(args) == Some(IntToString(userId) + "@" + token)
    ensures ParsePayload(args, decode) == Some((userId, token))
  {
    var s := IntToString(userId);
    assert forall k :: 0 <= k < |s| ==> s[k] != '@';
    assert s + "@" + token == s + ['@'] + token;
    SplitTwo(s, token, '@');
    ParseIntOfIntToString(userId);
  }

  /** `fetch_one` of the unlocked row with this id: the first such row. */
  function RowById(users: seq<User>, id: int): (r: Option<User>)
    ensures r.None? <==> forall i :: 0 <= i < |users| ==> users[i].locked || users[i].id != id
    ensures r.Some? ==> r.value in users && !r.value.locked && r.value.id == id
  {
    if |users| == 0 then None
    else if !users[0].locked && users[0].id == id then Some(users[0])
    else
      var r := RowById(users[1..], id);
      assert forall i :: 1 <= i < |users| ==> users[i] == users[1..][i - 1];
      r
  }

  /** How a `/start` ends. */
  datatype StartOutcome =
    | BadPayload
    | UnknownUser
    | AlreadyRegistered
    | TokenMismatch
    | Registered(userId: int, name: string)

  /** The decision `cmd_start` takes, in its order of checks. */
  function StartDecision(users: seq<User>, args: string, decode: string -> Option<string>): (o: StartOutcome)
    ensures o == BadPayload <==> ParsePayload(args, decode).None?
    ensures o == UnknownUser <==> ParsePayload(args, decode).Some? && RowById(users, ParsePayload(args, decode).value.0).None?
    ensures o == AlreadyRegistered ==>
      && ParsePayload(args, decode).Some?
      && var row := RowById(users, ParsePayload(args, decode).value.0);
      && row.Some? && row.value.telegramChatId.Some? && row.value.telegramChatId.value != 0
    ensures o.Registered? ==>
      && ParsePayload(args, decode).Some? && o.userId == ParsePayload(args, decode).value.0
      && RowById(users, o.userId).Some? && o.name == RowById(users, o.userId).value.name
  {
    var p := ParsePayload(args, decode);
    if p.None? then BadPayload else RowDecision(users, p.value.0, p.value.1)
  }

  /** The checks on the user row, once the payload has parsed. */
  function RowDecision(users: seq<User>, userId: int, token: string): StartOutcome {
    var row := RowById(users, userId);
    if row.None? then UnknownUser
    else if row.value.telegramChatId.Some? && row.value.telegramChatId.value != 0 then AlreadyRegistered
    else if row.value.telegramToken == Some(token) then Registered(userId, row.value.name)
    else TokenMismatch
  }

  /** `UPDATE users SET telegram_chat_id = :chat WHERE id = :id`: every row with the id, and nothing else. */
  function SetChatId(users: seq<User>, id: int, chatId: int): (r: seq<User>)
    ensures |r| == |users|
    ensures forall i :: 0 <= i < |users| ==>
      r[i] == if users[i].id == id then users[i].(telegramChatId := Some(chatId)) else users[i]
  {
    seq(|users|, i requires 0 <= i < |users| => if users[i].id == id then users[i].(telegramChatId := Some(chatId)) else users[i])
  }

  /** What `/start` answers. */
  function StartAnswers(o: StartOutcome, chatId: int): seq<Answer> {
    match o
    case BadPayload => [Answer(chatId, RegistrationError)]
    case AlreadyRegistered => [Answer(chatId, AlreadyRegisteredText)]
    case Registered(_, name) => [Answer(chatId, WelcomePrefix + "<b>" + name + "</b>")]
    case _ => []
  }

  /**
   * Registration links the chat only on a matching token: the table
   * changes exactly on that outcome, and only the chat id of the user's
   * rows changes.
   */
  lemma OnlyMatchRegisters(users: seq<User>, args: string, decode: string -> Option<string>)
    ensures var o := StartDecision(users, args, decode);
      o.Registered? <==>
        && ParsePayload(args, decode).Some?
        && var p := ParsePayload(args, decode).value;
        && RowById(users, p.0).Some?
        && !(RowById(users, p.0).value.telegramChatId.Some? && RowById(users, p.0).value.telegramChatId.value != 0)
        && RowById(users, p.0).value.telegramToken == Some(p.1)
  {
  }

  /** The row registration found is still the first unlocked row for its id after the update. */
  lemma RowByIdAfterSet(users: seq<User>, id: int, chatId: int)
    requires RowById(users, id).Some?
    ensures RowById(SetChatId(users, id, chatId), id) == Some(RowById(users, id).value.(telegramChatId := Some(chatId)))
  {
    if !(!users[0].locked && users[0].id == id) {
      assert SetChatId(users, id, chatId)[1..] == SetChatId(users[1..], id, chatId);
      RowByIdAfterSet(users[1..], id, chatId);
    }
  }

  /** Following the same link again after registering in a chat with a non-zero id only says "already registered". */
  lemma StartTwice(users: seq<User>, args: string, decode: string -> Option<string>, chatId: int)
    requires StartDecision(users, args, decode).Registered?
    requires chatId != 0
    ensures StartDecision(SetChatId(users, StartDecision(users, args, decode).userId, chatId), args, decode) == AlreadyRegistered
  {
    RowByIdAfterSet(users, StartDecision(users, args, decode).userId, chatId);
  }

  class Bot {
    /** The users table. */
    var users: seq<User>
    /** Every answer sent, in order. */
    var answers: seq<Answer>

    constructor (table: seq<User>)
      ensures users == table && answers == []
    {
      users := table;
      answers := [];
    }

    /**
     * `cmd_start`: a malformed payload is answered with the registration
     * error and nothing is read; an unknown user is ignored; a registered
     * one is told so; a matching token stores the chat id and welcomes the
     * user; a wrong token is ignored.
     */
    method CmdStart(args: string, chatId: int, decode: string -> Option<string>)
      modifies this
      ensures var o := StartDecision(old(users), args, decode);
        && users == (if o.Registered? then SetChatId(old(users), o.userId, chatId) else old(users))
        && answers == old(answers) + StartAnswers(o, chatId)
    {
      var p := ParsePayload(args, decode);
      if p.None? {
        answers := answers + [Answer(chatId, RegistrationError)];
      } else {
        CheckRow(p.value.0, p.value.1, chatId);
      }
    }

    /** The part of `cmd_start` after the payload has parsed: the row lookup and its early returns. */
    method CheckRow(userId: int, token: string, chatId: int)
      modifies this
      ensures var o := RowDecision(old(users), userId, token);
        && users == (if o.Registered? then SetChatId(old(users), userId, chatId) else old(users))
        && answers == old(answers) + StartAnswers(o, chatId)
    {
      var row := RowById(users, userId);
      if row.None? {
        return;
      }
      if row.value.telegramChatId.Some? && row.value.telegramChatId.value != 0 {
        answers := answers + [Answer(chatId, AlreadyRegisteredText)];
        return;
      }
      if row.value.telegramToken == Some(token) {
        users := SetChatId(users, userId, chatId);
        answers := answers + [Answer(chatId, WelcomePrefix + "<b>" + row.value.name + "</b>")];
      }
    }

    /** `cmd_id`: tells the sender their user id and the chat id. */
    method CmdId(fromUserId: int, chatId: int)
      modifies this`answers
      ensures answers == old(answers) + [Answer(chatId, "Your ID: " + IntToString(fromUserId) + " Your chat ID: " + IntToString(chatId))]
    {
      answers := answers + [Answer(chatId, "Your ID: " + IntToString(fromUserId) + " Your chat ID: " + IntToString(chatId))];
    }

    /** `hello`: "ping" is answered with "pong", or with "Nice try!" when sending "pong" fails. */
    method Hello(text: string, chatId: int, pongFails: bool)
      modifies this`answers
      ensures text != "ping" ==> answers == old(answers)
      ensures text == "ping" ==> answers == old(answers) + [Answer(chatId, if pongFails then "Nice try!" else "pong")]
    {
      if text == "ping" {
        if pongFails {
          answers := answers + [Answer(chatId, "Nice try!")];
        } else {
          answers := answers + [Answer(chatId, "pong")];
        }
      }
    }
  }
}
