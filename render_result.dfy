/** PrefabIconRenderResult: the outcome of one render, built only by its three factories. */
module RenderResults {
  import opened Wrappers
  import opened EditorHost

  datatype RenderResult = RenderResult(
    texture: Option<Texture2D>,
    savedPath: Option<string>,
    success: bool,
    errorMessage: Option<string>)

  /** At most one of the texture, the saved path and the error message is set. */
  predicate OnePayload(r: RenderResult) {
    && (r.texture.Some? ==> r.savedPath.None? && r.errorMessage.None?)
    && (r.savedPath.Some? ==> r.errorMessage.None?)
  }

  /** How every factory result looks: one payload, and a failure exactly when it carries a message. */
  predicate Consistent(r: RenderResult) {
    OnePayload(r) && (r.success <==> r.errorMessage.None?)
  }

  function CreateError(errorMessage: string): (r: RenderResult)
    ensures Consistent(r) && !r.success && r.errorMessage == Some(errorMessage)
    ensures r.texture.None? && r.savedPath.None?
  {
    RenderResult(None, None, false, Some(errorMessage))
  }

  function CreateSuccess(texture: Texture2D): (r: RenderResult)
    ensures Consistent(r) && r.success && r.texture == Some(texture)
    ensures r.savedPath.None? && r.errorMessage.None?
  {
    RenderResult(Some(texture), None, true, None)
  }

  function CreateSaved(path: string): (r: RenderResult)
    ensures Consistent(r) && r.success && r.savedPath == Some(path)
    ensures r.texture.None? && r.errorMessage.None?
  {
    RenderResult(None, Some(path), true, None)
  }

  /** Each consistent result comes from exactly one factory, and it can be told which from the result alone. */
  lemma {:induction false} FactoryOf(r: RenderResult)
    requires Consistent(r)
    ensures !r.success ==> r == CreateError(r.errorMessage.value)
    ensures r.success && r.texture.Some? ==> r == CreateSuccess(r.texture.value)
    ensures r.success && r.savedPath.Some? ==> r == CreateSaved(r.savedPath.value)
  {
  }
}
