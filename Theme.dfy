/**
 * The colour constants of the app theme that the status and priority
 * mappings choose from, as the hex strings the theme defines. Several
 * status colours share a value with a general-purpose colour (online is
 * the success green, offline the error red, maintenance the warning orange).
 */
module Theme {
  const Success := "#4caf50"
  const Warning := "#ff9800"
  const Error := "#f44336"
  const Info := "#2196f3"
  const Disabled := "#bdbdbd"

  const Online := "#4caf50"
  const Offline := "#f44336"
  const Maintenance := "#ff9800"
  const WarningStatus := "#ffc107"

  /** The two-digit hex alpha the cards append to a colour for a translucent badge background. */
  const TranslucentSuffix := "20"
}
