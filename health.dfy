/** The MicroProfile Health reply the readiness checks build. */
module Health {
  datatype HealthStatus = Up | Down
  datatype HealthCheckResponse = HealthCheckResponse(name: string, status: HealthStatus)

  /** `HealthCheckResponse.named(name).up()/down().build()`, equivalently
      `HealthCheckResponse.up(name)` / `down(name)`. */
  function Report(name: string, up: bool): (r: HealthCheckResponse)
    ensures r.name == name && (r.status == Up <==> up)
  {
    HealthCheckResponse(name, if up then Up else Down)
  }
}
