/** The signed-in node session kept by the auth store. */
module Session {
  /** The node's identity, the profile, the node's address and the API
      key that authorises requests. */
  datatype Auth = Auth(shinkaiIdentity: string, profile: string, nodeAddress: string, apiKey: string)
}
