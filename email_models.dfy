/**
 * The shared e-mail models (app/clients/models.py): an address with an
 * optional display name, and attachments.
 */
module EmailModels {
  import opened Wrappers
  import opened Text
  import opened Json

  datatype EmailAddress = EmailAddress(email: string, name: Option<string>)

  /** The request fields typed `str | EmailAddress`. */
  datatype Address = Plain(text: string) | Structured(address: EmailAddress)

  datatype Attachment = Attachment(name: string, contentType: string, data: string)

  /** The name is used only when it is a non-empty string. */
  predicate HasName(a: EmailAddress) {
    a.name.Some? && Truthy(a.name.value)
  }

  /**
   * `EmailAddress.to_string`: `"name <email>"` with a name, the bare
   * address otherwise; the address always appears in the result.
   */
  function ToString(a: EmailAddress): (s: string)
    ensures s == a.email <==> !HasName(a)
    ensures HasName(a) ==> |s| > |a.name.value| && s[..|a.name.value|] == a.name.value && s[|s| - 1] == '>'
    ensures Contains(s, a.email)
  {
    if HasName(a) then
      var s := a.name.value + " <" + a.email + ">";
      var i := |a.name.value| + 2;
      assert PartAt(s, a.email, i);
      s
    else
      assert PartAt(a.email, a.email, 0);
      a.email
  }

  /** The bare address a recipient field carries. */
  function EmailOf(a: Address): string {
    match a
    case Plain(s) => s
    case Structured(e) => e.email
  }

  /** `convert` in the Postal dump: `to_string()` for an EmailAddress, the text itself otherwise. */
  function Convert(a: Address): (s: string)
    ensures Contains(s, EmailOf(a))
  {
    match a
    case Plain(s) =>
      assert PartAt(s, s, 0);
      s
    case Structured(e) => ToString(e)
  }

  /** pydantic's dump of an EmailAddress; `excludeNone` drops a missing name. */
  function DumpAddress(a: Address, excludeNone: bool): Json {
    match a
    case Plain(s) => JStr(s)
    case Structured(e) =>
      if e.name.Some? then JObj(map["email" := JStr(e.email), "name" := JStr(e.name.value)])
      else if excludeNone then JObj(map["email" := JStr(e.email)])
      else JObj(map["email" := JStr(e.email), "name" := JNull])
  }
}
