/** The parsed configuration file: one `DatabaseConnection` per element of the
    `Connections` array, plus the three scalar settings. */
module Configuration {

  /** One database target of one brand. `dbPassword` holds the hex-encoded
      ciphertext as read from the file, and the plaintext once decrypted. */
  datatype DatabaseConnection = DatabaseConnection(
    brandName: string,
    brandShortCode: string,
    connectionName: string,
    m2kWebServer: string,
    server: string,
    database: string,
    dbUsername: string,
    dbPassword: string)

  datatype ApplicationConfiguration = ApplicationConfiguration(
    connections: seq<DatabaseConnection>,
    papertrailEndPoint: string,
    httpRootPath: string,
    httpServerPort: string)

  /** Go's zero value `DatabaseConnectionConfiguration{}`. */
  const EmptyConnection := DatabaseConnection("", "", "", "", "", "", "", "")

  /** Go's zero value `ApplicationConfiguration{}`. */
  const EmptyConfiguration := ApplicationConfiguration([], "", "", "")
}
