/** The super-admin system health widget. */
module SystemHealth {
  import opened Wrappers

  const Healthy: string := "healthy"
  const Degraded: string := "degraded"
  const Down: string := "down"

  const Green: string := "text-green-600"
  const Yellow: string := "text-yellow-600"
  const Red: string := "text-red-600"
  const Gray: string := "text-gray-600"

  const UnavailableMessage: string := "Unable to load system health"

  datatype Performance = Performance(uptime: real, responseTime: real, errorRate: real)

  /** The health report; `services` are the entries of the services object, in order. */
  datatype Health = Health(status: string, performance: Performance, services: seq<(string, string)>)

  datatype Glyph = CheckCircle | AlertCircle | XCircle

  /** An icon with its colour class. */
  datatype Icon = Icon(glyph: Glyph, colour: string)

  /** `getStatusIcon`: a green check when healthy, a yellow alert when degraded, a red cross
      when down, and a gray alert for anything else. */
  function StatusIcon(status: string): (i: Icon)
    ensures status == Healthy ==> i == Icon(CheckCircle, Green)
    ensures status == Degraded ==> i == Icon(AlertCircle, Yellow)
    ensures status == Down ==> i == Icon(XCircle, Red)
    ensures status !in {Healthy, Degraded, Down} ==> i == Icon(AlertCircle, Gray)
  {
    if status == Healthy then Icon(CheckCircle, Green)
    else if status == Degraded then Icon(AlertCircle, Yellow)
    else if status == Down then Icon(XCircle, Red)
    else Icon(AlertCircle, Gray)
  }

  /** `getStatusColor`: the status text has the same colour as its icon, and gray exactly
      for the statuses the widget does not know. */
  function StatusColour(status: string): (c: string)
    ensures c == StatusIcon(status).colour
    ensures c == Gray <==> status !in {Healthy, Degraded, Down}
  {
    if status == Healthy then Green
    else if status == Degraded then Yellow
    else if status == Down then Red
    else Gray
  }

  /** Only a healthy status shows the check; only a down status shows the cross. */
  lemma GlyphIdentifiesStatus(status: string)
    ensures StatusIcon(status).glyph == CheckCircle <==> status == Healthy
    ensures StatusIcon(status).glyph == XCircle <==> status == Down
  {
  }

  /** One service chip: its name and the icon of its status. */
  datatype Chip = Chip(name: string, icon: Icon)

  function Chips(services: seq<(string, string)>): (chips: seq<Chip>)
    ensures |chips| == |services|
    ensures forall i :: 0 <= i < |services| ==> chips[i] == Chip(services[i].0, StatusIcon(services[i].1))
  {
    seq(|services|, i requires 0 <= i < |services| => Chip(services[i].0, StatusIcon(services[i].1)))
  }

  /** What the widget shows. */
  datatype View =
    | Loading
    | Unavailable(message: string)
    | Panel(icon: Icon, statusColour: string, status: string, performance: Performance, chips: seq<Chip>)

  /** Loading comes first, then missing data, then the panel. */
  function Render(health: Option<Health>, isLoading: bool): (v: View)
    ensures v == Loading <==> isLoading
    ensures v.Unavailable? <==> !isLoading && health.None?
    ensures v.Unavailable? ==> v.message == UnavailableMessage
    ensures v.Panel? ==>
      (health.Some? && v.status == health.value.status
       && v.icon == StatusIcon(health.value.status) && v.statusColour == v.icon.colour
       && v.performance == health.value.performance && v.chips == Chips(health.value.services))
  {
    if isLoading then Loading
    else if health.None? then Unavailable(UnavailableMessage)
    else
      var h := health.value;
      Panel(StatusIcon(h.status), StatusColour(h.status), h.status, h.performance, Chips(h.services))
  }
}
