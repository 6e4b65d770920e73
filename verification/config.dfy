/** The configuration constants the modelled scripts read. */
module Config {

  const API_BASE_URL: string := "http://127.0.0.1:8000/api/"

  const FRONTEND_BASE_URL: string := "http://127.0.0.1:5500/coderr/"

  /** The three states of the activation page. */
  datatype ActivationStatus = Processing | Success | Error

  /** One entry of the activation message table. */
  datatype MessageTemplate = MessageTemplate(icon: string, title: string, text: string)

  // The entries of the activation message table.
  const PROCESSING_TITLE: string := "Processing..."
  const PROCESSING_TEXT: string := "Please wait while we process your request."
  const SUCCESS_ICON: string := "<img src=\"./assets/icons/check.svg\" alt=\"Success\" width=\"28\" height=\"28\">"
  const SUCCESS_TITLE: string := "Success!"
  const SUCCESS_TEXT: string := "Operation completed successfully!"
  const ERROR_ICON: string := "<img style=\"background:red\" src=\"./assets/icons/error.svg\" alt=\"Error\" width=\"28\" height=\"28\">"
  const ERROR_TITLE: string := "Error!"
  const ERROR_TEXT: string := "Something went wrong."

  /** The activation message table, one entry per status. */
  function ActivationMessages(status: ActivationStatus): MessageTemplate
  {
    match status
    case Processing => MessageTemplate("", PROCESSING_TITLE, PROCESSING_TEXT)
    case Success => MessageTemplate(SUCCESS_ICON, SUCCESS_TITLE, SUCCESS_TEXT)
    case Error => MessageTemplate(ERROR_ICON, ERROR_TITLE, ERROR_TEXT)
  }
}
