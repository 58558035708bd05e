/**
  * The editor's state outside the scene that a render touches: the GPU's
  * render targets (with RenderTexture.active), the Texture2D objects, and the
  * file system. Pixels and encoded bytes are not modelled.
  */
module EditorHost {
  import opened Wrappers

  /** A Texture2D object; `id` is its identity. */
  datatype Texture2D = Texture2D(id: nat, width: int, height: int)

  /** The file EncodeToPNG and File.WriteAllBytes produce from a texture. */
  datatype Png = Png(image: Texture2D)

  class Gpu {
    /** RenderTexture.active; None is the screen. */
    var active: Option<nat>
    /** RenderTextures created and not yet released. */
    var renderTargets: set<nat>
    /** Texture2D objects not yet destroyed. */
    var textures: set<nat>
    var next: nat

    ghost predicate Valid()
      reads this
    {
      (forall t :: t in renderTargets ==> t < next) && (forall t :: t in textures ==> t < next)
    }

    constructor ()
      ensures Valid() && active == None && renderTargets == {} && textures == {} && next == 0
    {
      active, renderTargets, textures, next := None, {}, {}, 0;
    }

    /** `new RenderTexture(...)` followed by Create(). */
    method CreateRenderTarget() returns (id: nat)
      requires Valid()
      modifies this
      ensures Valid() && id == old(next) && next == old(next) + 1
      ensures renderTargets == old(renderTargets) + {id} && textures == old(textures) && active == old(active)
    {
      id := next;
      renderTargets := renderTargets + {id};
      next := next + 1;
    }

    /** RenderTexture.Release(). */
    method Release(id: nat)
      requires Valid()
      modifies this`renderTargets
      ensures Valid() && renderTargets == old(renderTargets) - {id}
      ensures textures == old(textures) && active == old(active) && next == old(next)
    {
      renderTargets := renderTargets - {id};
    }

    /** `new Texture2D(width, height, ...)`. */
    method NewTexture(width: int, height: int) returns (t: Texture2D)
      requires Valid()
      modifies this
      ensures Valid() && t == Texture2D(old(next), width, height) && next == old(next) + 1
      ensures textures == old(textures) + {t.id} && renderTargets == old(renderTargets) && active == old(active)
    {
      t := Texture2D(next, width, height);
      textures := textures + {next};
      next := next + 1;
    }

    /** Object.DestroyImmediate(texture). */
    method DestroyTexture(t: Texture2D)
      requires Valid()
      modifies this`textures
      ensures Valid() && textures == old(textures) - {t.id}
      ensures renderTargets == old(renderTargets) && active == old(active) && next == old(next)
    {
      textures := textures - {t.id};
    }

    /** RenderTexture.active = target. */
    method SetActive(target: Option<nat>)
      modifies this`active
      ensures active == target
      ensures renderTargets == old(renderTargets) && textures == old(textures) && next == old(next)
    {
      active := target;
    }
  }

  class FileSystem {
    var directories: set<string>
    var files: map<string, Png>

    constructor ()
      ensures directories == {} && files == map[]
    {
      directories, files := {}, map[];
    }

    /** Directory.CreateDirectory(path). */
    method CreateDirectory(path: string)
      modifies this`directories
      ensures directories == old(directories) + {path} && files == old(files)
    {
      directories := directories + {path};
    }

    /** File.WriteAllBytes(path, bytes). */
    method WriteAllBytes(path: string, data: Png)
      modifies this`files
      ensures files == old(files)[path := data] && directories == old(directories)
    {
      files := files[path := data];
    }
  }

  /** EditorPrefs: the string preferences the editor keeps between sessions. */
  class EditorPrefs {
    var strings: map<string, string>

    constructor (stored: map<string, string>)
      ensures strings == stored
    {
      strings := stored;
    }

    /** EditorPrefs.GetString(key, defaultValue): the stored value, or the default when the key was never set. */
    function GetString(key: string, defaultValue: string): (value: string)
      reads this
      ensures key in strings ==> value == strings[key]
      ensures key !in strings ==> value == defaultValue
    {
      if key in strings then strings[key] else defaultValue
    }

    /** EditorPrefs.SetString(key, value). */
    method SetString(key: string, value: string)
      modifies this
      ensures strings == old(strings)[key := value]
    {
      strings := strings[key := value];
    }
  }
}
