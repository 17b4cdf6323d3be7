/** The custom resources as values: what one version of an object in the API store holds. */
module ApiTypes {
  import opened Wrappers

  datatype TrustKey = TrustKey(id: string, key: string, passPhrase: string)

  /** `targets` is None for a nil Go map, which reads like an empty one but cannot be written. */
  datatype SignerKeySpec = SignerKeySpec(root: TrustKey, targets: Option<map<string, TrustKey>>) {
    /** Reading a Go map: a nil map has no entries. */
    function Entries(): map<string, TrustKey> { targets.GetOr(map[]) }

    function WithTarget(name: string, key: TrustKey): SignerKeySpec {
      SignerKeySpec(root, Some(Entries()[name := key]))
    }
  }

  datatype SignerKeyState = SignerKeyState(created: bool, reason: string, message: string, rootKeyID: string)

  datatype ResponseResult = Success | Fail

  datatype ImageSignResponse = ImageSignResponse(result: ResponseResult, reason: string, message: string)

  /** The response makeResponse builds. */
  function MakeResponse(result: bool, reason: string, message: string): ImageSignResponse {
    ImageSignResponse(if result then Success else Fail, reason, message)
  }

  /** The state makeSignerStatus builds: a fresh struct, so a success carries no reason and a failure no key ID. */
  function MakeSignerState(created: bool, reason: string, message: string, keyID: string): SignerKeyState {
    if created then SignerKeyState(true, "", "", keyID) else SignerKeyState(false, reason, message, "")
  }

  datatype RegistryLogin = RegistryLogin(namespace: string, name: string, dcjSecretName: string, certSecretName: string)

  datatype ImageSignRequestSpec = ImageSignRequestSpec(registryLogin: RegistryLogin, image: string, pvcName: string,
      signer: string)

  datatype NamespacedName = NamespacedName(namespace: string, name: string)
}
