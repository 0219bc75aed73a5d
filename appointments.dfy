/** Appointment statuses as the admin pages display them (the same switch appears in the
    agenda and in the client history). */
module Appointments {

  /** The statuses the backend uses for an appointment's lifecycle. */
  const KnownStatuses: set<string> := {"scheduled", "done", "canceled", "no_show"}

  /** The Portuguese label shown for a status; an unknown status is shown as it is. */
  function StatusLabel(status: string): (shown: string)
    ensures shown != status <==> status in KnownStatuses
    ensures status in KnownStatuses ==> shown !in KnownStatuses
  {
    if status == "scheduled" then "Agendado"
    else if status == "done" then "Realizado"
    else if status == "canceled" then "Cancelado"
    else if status == "no_show" then "Não compareceu"
    else status
  }

  const DefaultStatusColor := "bg-blue-100 text-blue-700"

  /** The badge colour classes for a status: one each for done, canceled and no_show, and the
      default (blue) for every other status, "scheduled" included. */
  function StatusColor(status: string): (color: string)
    ensures color == DefaultStatusColor <==> status !in {"done", "canceled", "no_show"}
  {
    if status == "done" then "bg-green-100 text-green-700"
    else if status == "canceled" then "bg-red-100 text-red-700"
    else if status == "no_show" then "bg-yellow-100 text-yellow-700"
    else DefaultStatusColor
  }
}
