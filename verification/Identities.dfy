/** What every party of the system agrees on before anything is exchanged. */
module Identities {
  /** The server's own peer id. */
  const SERVER_ID: string := "server"

  /** How many parties it takes to sign or to recover. */
  const THRESHOLD: nat := 2
}
