/** Failure-carrying values shared by every module of the model, and the
    errors the modelled code throws. */
module Wrappers {

  datatype Option<T> = None | Some(value: T)

  /** The outcome of an operation that returns nothing: it completes or it throws. */
  datatype Outcome<E> = Pass | Fail(error: E)

  /** The outcome of an operation that returns a value or throws. */
  datatype Result<T, E> = Ok(value: T) | Err(error: E)

  /** Every error the modelled code throws, plus one for failures raised by code
      outside the model (plugin hooks, service initializers, Cesium loaders). */
  datatype Error =
    | ServiceNotRegistered(name: string)        // container.ts: the name was never registered
    | NotAConstructor(name: string)             // the TypeError of `new` applied to a non-constructor
    | Foreign(code: nat)                        // thrown by code outside the model
    | ViewerNotCreated                          // viewerService.ts: the viewer getter while there is no viewer
    | UndefinedViewer                           // the TypeError of a write through `this.viewer` when it is undefined
    | DuplicateLayerId(id: string)              // layerService.ts: a layer with this id exists already
    | TerrainLayerNotSupported                  // layerService.ts: terrain layers go through loadTerrain
    | UnsupportedLayerType(kind: string)        // layerService.ts: the layer type is not supported
    | TerrainUrlRequired                        // terrainService.ts: a url provider needs a URL
    | TerrainCustomProviderRequired             // terrainService.ts: a custom provider needs an instance
    | UnsupportedTerrainProvider(kind: string)  // terrainService.ts: the provider kind is not supported
    | CsvRequiresArray                          // dataService.ts: CSV export needs array data
    | KmlNotImplemented                         // dataService.ts: KML export is not implemented
    | UnsupportedExportFormat(format: string)   // dataService.ts: the export format is not supported
}
