/** The payloads that the modelled code passes to `emit`, and a published event. */
module Messages {
  import opened Wrappers

  datatype Payload =
    | NoData
    | ErrorData(error: Error)
    | IdData(id: string)
    | VisibilityData(id: string, visible: bool)
    | OpacityData(id: string, opacity: real)
    | LayerErrorData(id: string, kind: string, error: Error)
    | IdErrorData(id: string, error: Error)
    | ProviderData(provider: string)
    | ProviderErrorData(provider: string, error: Error)
    | ExportData(format: string, filename: string)

  datatype Message = Message(event: string, payload: Payload)
}
