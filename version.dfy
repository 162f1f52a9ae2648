// A server version from the bot's version catalog: its name, the executable
// to run and the data wads that come with it. The catalog itself is read
// from disk and reaches the model only as a lookup function.
module Versions {
  datatype Version = Version(name: string, path: string, data: string)
}
