/**
 * The configuration of one server instance, one field per key the validator
 * reads. Every field holds the raw JSON value, so that ill-typed entries can be
 * represented and rejected.
 */
module Types {
  import opened Utils

  datatype ConfigServer = ConfigServer(
    root: Value,
    port: Value,
    proxy: Value,
    location: Value,
    headers: Value,
    redirectHtmlExtension: Value,
    notFoundPath: Value,
    internalErrorPath: Value,
    forbiddenPath: Value,
    allowedFileTypes: Value,
    forbiddenFileTypes: Value)
}
