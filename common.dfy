/** Values shared by the rule builder and the pages: optional values, the
    scalars that forms and rule conditions hold, server replies and the
    content of the message modal. */
module Common {

  datatype Option<+T> = None | Some(value: T)

  /** A scalar held by a form field or a rule condition: either the text the
      user typed, or the JavaScript number `Number(text)`. The number is kept
      symbolic (it is named by the text it was converted from), since floating
      point conversion is not part of this model. */
  datatype Value = Text(text: string) | NumberOf(text: string)

  /** The empty string `''`, the default of every blank form field. */
  const Blank: Value := Text("")

  /** `Number(v)`: text becomes the number it spells, a number stays itself. */
  function ToNumber(v: Value): (r: Value)
    ensures r.NumberOf?
    ensures v.NumberOf? ==> r == v
    ensures r.text == v.text
  {
    NumberOf(v.text)
  }

  /** `message || fallback`: a missing or empty message is replaced. */
  function OrDefault(message: Option<string>, fallback: string): (r: string)
    ensures r == fallback || (message.Some? && r == message.value)
    ensures r == "" ==> fallback == ""
    ensures message.Some? && message.value != "" ==> r == message.value
  {
    if message.Some? && message.value != "" then message.value else fallback
  }

  /** How a request to the server ended: `response.data.success` was true,
      it was false (with `response.data.message`), or the call threw (with
      `error.response?.data?.message`). */
  datatype Reply = Succeeded | Rejected(message: Option<string>) | Threw(message: Option<string>)

  datatype ModalKind = Info | Success | Error

  /** What `setModalContent` stores: title, message and type of the modal. */
  datatype Modal = Modal(title: string, message: string, kind: ModalKind)

  const NoModal: Modal := Modal("", "", Info)
}
