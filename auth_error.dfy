/**
 * The sign-in error page (fixo-v2/src/app/auth/error/page.tsx): the message
 * shown for the `error` query parameter.
 */
module AuthError {
  import opened Wrappers
  import opened Js

  /** The page's `errors` table (its own properties). */
  const Errors: map<string, string> := map[
    "Configuration" := "Chyba konfigurace serveru.",
    "AccessDenied" := "Přístup byl zamítnut.",
    "Verification" := "Ověřovací odkaz vypršel nebo byl již použit.",
    "Default" := "Nastala neočekávaná chyba.",
    "OAuthSignin" := "Chyba při přihlašování přes OAuth.",
    "OAuthCallback" := "Chyba při zpracování odpovědi od poskytovatele.",
    "OAuthCreateAccount" := "Nepodařilo se vytvořit účet.",
    "EmailCreateAccount" := "Nepodařilo se vytvořit účet s tímto emailem.",
    "Callback" := "Chyba při zpracování přihlášení.",
    "OAuthAccountNotLinked" := "Tento email je již registrován s jiným poskytovatelem.",
    "EmailSignin" := "Nepodařilo se odeslat přihlašovací email.",
    "CredentialsSignin" := "Neplatné přihlašovací údaje.",
    "SessionRequired" := "Pro přístup k této stránce se musíte přihlásit."
  ]

  const DefaultMessage := "Nastala neočekávaná chyba."

  /** The properties every object literal inherits from `Object.prototype`. */
  const PrototypeMembers: set<string> := {
    "constructor", "hasOwnProperty", "isPrototypeOf", "propertyIsEnumerable",
    "toString", "toLocaleString", "valueOf", "__proto__",
    "__defineGetter__", "__defineSetter__", "__lookupGetter__", "__lookupSetter__"
  }

  /** What `errors[code]` reads on an object literal: an own message, an inherited member, or `undefined`. */
  datatype Lookup = Message(text: string) | Inherited(member: string) | Undefined

  /** Property access on the `errors` literal, own properties first, then the prototype chain. */
  function ReadErrors(code: string): (r: Lookup)
    ensures r.Message? <==> code in Errors
    ensures r.Message? ==> r.text == Errors[code]
    ensures r.Inherited? <==> code !in Errors && code in PrototypeMembers
  {
    if code in Errors then Message(Errors[code])
    else if code in PrototypeMembers then Inherited(code)
    else Undefined
  }

  /** `error ? errors[error] || errors.Default : errors.Default`, as written. */
  function ShownAsWritten(error: Option<string>): (r: Lookup)
    ensures r.Message? || r.Inherited?
  {
    if !StrTruthy(error) then Message(Errors["Default"])
    else match ReadErrors(error.value)
      case Message(text) => if text != "" then Message(text) else Message(Errors["Default"])
      case Inherited(m) => Inherited(m)
      case Undefined => Message(Errors["Default"])
  }

  /** As written, `?error=toString` makes the page render a function instead of a message. */
  lemma PrototypeCodeShowsNoMessage()
    ensures ShownAsWritten(Some("toString")) == Inherited("toString")
    ensures !ShownAsWritten(Some("toString")).Message?
  {
  }

  /** The message shown, reading only the table's own properties. */
  function ErrorMessage(error: Option<string>): (msg: string)
    ensures !StrTruthy(error) ==> msg == DefaultMessage
    ensures StrTruthy(error) && error.value in Errors ==> msg == Errors[error.value]
    ensures StrTruthy(error) && error.value !in Errors ==> msg == DefaultMessage
    ensures msg in Errors.Values
  {
    if StrTruthy(error) && error.value in Errors && Errors[error.value] != "" then Errors[error.value]
    else Errors["Default"]
  }

  /** For codes that are not inherited members, the corrected reading is the written one. */
  lemma CorrectedAgreesOffPrototype(error: Option<string>)
    requires error.None? || error.value !in PrototypeMembers
    ensures ShownAsWritten(error) == Message(ErrorMessage(error))
  {
  }

  /** A known code other than `Default` never shows the default message. */
  lemma MessageIdentifiesCode(code: string)
    requires code in Errors && code != "Default"
    ensures ErrorMessage(Some(code)) != DefaultMessage
  {
  }

  /** No two codes of the table share a message, so the shown message tells which known code was given. */
  lemma MessagesAreDistinct(a: string, b: string)
    requires a in Errors && b in Errors && a != b
    ensures ErrorMessage(Some(a)) != ErrorMessage(Some(b))
  {
  }
}
