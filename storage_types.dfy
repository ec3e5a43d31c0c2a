/** The shapes every provider shares: the file entry, the 206 headers, dates and failures. */
module StorageTypes {
  import opened Wrappers

  /** A `Date`: built from a timestamp text the backend sent, or an instant in
      milliseconds since the epoch. */
  datatype Instant = FromText(text: string) | At(millis: int)

  const Epoch: Instant := At(0)

  /** `IFile`: one file or folder as every provider reports it. `path` is the
      backend's own identifier (a relative path, an object key, a node id or a
      lower-cased cloud path). */
  datatype IFile = IFile(
    name: string,
    path: string,
    size: int,
    mimeType: Option<string>,
    isFolder: bool,
    modifiedAt: Instant)

  /** `Header206`: the headers of a partial-content answer. */
  datatype Header206 = Header206(
    contentType: string,
    contentDisposition: string,
    contentLength: string,
    contentRange: string)

  /** Why an operation was rejected. */
  datatype Failure =
    | Thrown(message: string)                         // `throw new Error(message)` in the core
    | HttpStatus(statusCode: int, statusText: string) // a non-2xx answer (makeRequest)
    | InvalidJson                                     // `response.json()` rejected
    | SchemaMismatch                                  // a zod schema rejected the data
    | Backend(code: string)                           // passed through from fs, an SDK or the network
    | ResponseRejected(statusCode: int)               // a whole non-2xx response used as the rejection

  /** The options of each provider (src/types/options.ts). */
  datatype LocalOptions = LocalOptions(root: string)
  datatype S3Options = S3Options(
    accessKeyId: string,
    secretAccessKey: string,
    endpoint: string,
    bucket: string,
    region: Option<string>)
  datatype OAuthOptions = OAuthOptions(clientId: string, clientSecret: string, refreshToken: string)
}
