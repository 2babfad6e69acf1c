/** The dashboard's status banner: nothing, an error, a loading notice or
    a success notice, in that order of priority. */
module StatusMessage {
  import opened Wrappers

  datatype MessageType = Error | Info | Success

  /** The banner's look and text. */
  datatype MessageConfig = MessageConfig(kind: MessageType, icon: string, bgColor: string,
                                         borderColor: string, textColor: string, message: string)

  /** An error is shown when it is a non-empty text. */
  predicate Truthy(error: Option<string>)
  {
    error.Some? && error.value != ""
  }

  const LoadingText := "Loading dashboard data..."
  const SuccessText := "Data updated successfully!"

  /** The look of each kind: icon, background, border and text colour. */
  function Icon(kind: MessageType): string
  {
    match kind
    case Error => "fa-exclamation-circle"
    case Info => "fa-spinner fa-spin"
    case Success => "fa-check-circle"
  }

  function BgColor(kind: MessageType): string
  {
    match kind
    case Error => "bg-red-50 dark:bg-red-900/20"
    case Info => "bg-blue-50 dark:bg-blue-900/20"
    case Success => "bg-green-50 dark:bg-green-900/20"
  }

  function BorderColor(kind: MessageType): string
  {
    match kind
    case Error => "border-red-500 dark:border-red-400"
    case Info => "border-blue-500 dark:border-blue-400"
    case Success => "border-green-500 dark:border-green-400"
  }

  function TextColor(kind: MessageType): string
  {
    match kind
    case Error => "text-red-800 dark:text-red-300"
    case Info => "text-blue-800 dark:text-blue-300"
    case Success => "text-green-800 dark:text-green-300"
  }

  /** `getMessageConfig`: an error first, then loading, otherwise success. */
  function GetMessageConfig(error: Option<string>, loading: bool): (c: MessageConfig)
    ensures c.kind == Error <==> Truthy(error)
    ensures c.kind == Info <==> !Truthy(error) && loading
    ensures c.kind == Success <==> !Truthy(error) && !loading
    ensures c.kind == Error ==> c.message == error.value
    ensures c.kind == Info ==> c.message == LoadingText
    ensures c.kind == Success ==> c.message == SuccessText
  {
    var kind := if Truthy(error) then Error else if loading then Info else Success;
    var message := if Truthy(error) then error.value else if loading then LoadingText else SuccessText;
    MessageConfig(kind, Icon(kind), BgColor(kind), BorderColor(kind), TextColor(kind), message)
  }

  /** `StatusMessage`: nothing without an error, a load in progress or a
      last-update time; otherwise the chosen banner. */
  function Render(error: Option<string>, loading: bool, hasLastUpdated: bool): (r: Option<MessageConfig>)
    ensures r.None? <==> !Truthy(error) && !loading && !hasLastUpdated
    ensures r.Some? ==> r.value == GetMessageConfig(error, loading)
  {
    if !Truthy(error) && !loading && !hasLastUpdated then None else Some(GetMessageConfig(error, loading))
  }

  /** The banner's look follows its kind: the three kinds never share a
      background, border, icon or text colour. */
  lemma StyleFollowsKind(e1: Option<string>, l1: bool, e2: Option<string>, l2: bool)
    ensures var c1, c2 := GetMessageConfig(e1, l1), GetMessageConfig(e2, l2);
            (c1.kind == c2.kind <==> c1.bgColor == c2.bgColor) &&
            (c1.kind == c2.kind <==> c1.borderColor == c2.borderColor) &&
            (c1.kind == c2.kind <==> c1.icon == c2.icon) &&
            (c1.kind == c2.kind <==> c1.textColor == c2.textColor)
  {
    var k1, k2 := GetMessageConfig(e1, l1).kind, GetMessageConfig(e2, l2).kind;
    ColoursDiffer(k1, k2);
    MarksDiffer(k1, k2);
  }

  /** Distinct kinds differ in their colours: each kind's strings have
      their own lengths. */
  lemma ColoursDiffer(k1: MessageType, k2: MessageType)
    ensures k1 != k2 ==> BgColor(k1) != BgColor(k2) && BorderColor(k1) != BorderColor(k2)
  {
    if k1 != k2 {
      assert |BgColor(k1)| != |BgColor(k2)|;
      assert |BorderColor(k1)| != |BorderColor(k2)|;
    }
  }

  /** Distinct kinds differ in their icon and text colour, again by length. */
  lemma MarksDiffer(k1: MessageType, k2: MessageType)
    ensures k1 != k2 ==> Icon(k1) != Icon(k2) && TextColor(k1) != TextColor(k2)
  {
    if k1 != k2 {
      assert |Icon(k1)| != |Icon(k2)|;
      assert |TextColor(k1)| != |TextColor(k2)|;
    }
  }

  /** An error outranks a load in progress and a last-update time. */
  lemma ErrorOutranks(message: string, loading: bool, hasLastUpdated: bool)
    requires message != ""
    ensures Render(Some(message), loading, hasLastUpdated) == Some(GetMessageConfig(Some(message), false))
  {
  }
}
