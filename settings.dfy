/** PrefabIconSettings: the mutable record the engine and the window share. */
module Settings {
  import opened Geometry
  import opened SceneModel

  /** The twenty fields of a settings object at one moment; references stay references. */
  datatype SettingsValue = SettingsValue(
    prefab: Prefab?,
    resolution: int,
    transparentBackground: bool,
    backgroundColor: Color,
    objectRotation: Vec3,
    cameraZoom: real,
    prefabZoom: real,
    prefabOffset: Vec2,
    backgroundSprite: Sprite?,
    backgroundZoom: real,
    backgroundOffset: Vec2,
    tintBackground: bool,
    backgroundTintColor: Color,
    frameSprite: Sprite?,
    frameZoom: real,
    frameOffset: Vec2,
    tintFrame: bool,
    frameTintColor: Color,
    fileName: string,
    folderPath: string)

  const DefaultFileName := "NewIcon"
  const DefaultFolderPath := "Assets/GeneratedSprites"

  /** The field initialisers of PrefabIconSettings. */
  const Defaults := SettingsValue(
    null, 512, true, White, Zero, 2.0,
    1.0, Vec2(0.0, 0.0),
    null, 1.0, Vec2(0.0, 0.0), false, White,
    null, 1.0, Vec2(0.0, 0.0), false, White,
    DefaultFileName, DefaultFolderPath)

  class PrefabIconSettings {
    var prefab: Prefab?
    var resolution: int
    var transparentBackground: bool
    var backgroundColor: Color
    var objectRotation: Vec3
    var cameraZoom: real
    var prefabZoom: real
    var prefabOffset: Vec2
    var backgroundSprite: Sprite?
    var backgroundZoom: real
    var backgroundOffset: Vec2
    var tintBackground: bool
    var backgroundTintColor: Color
    var frameSprite: Sprite?
    var frameZoom: real
    var frameOffset: Vec2
    var tintFrame: bool
    var frameTintColor: Color
    var fileName: string
    var folderPath: string

    function Snapshot(): SettingsValue
      reads this
    {
      SettingsValue(
        prefab, resolution, transparentBackground, backgroundColor, objectRotation, cameraZoom,
        prefabZoom, prefabOffset,
        backgroundSprite, backgroundZoom, backgroundOffset, tintBackground, backgroundTintColor,
        frameSprite, frameZoom, frameOffset, tintFrame, frameTintColor,
        fileName, folderPath)
    }

    /** `new PrefabIconSettings()`: resolution 512, transparent, zoom 2, layer zooms 1, no tints, no prefab or sprites. */
    constructor ()
      ensures Snapshot() == Defaults
      ensures prefab == null && backgroundSprite == null && frameSprite == null
      ensures resolution == 512 && transparentBackground && cameraZoom == 2.0
      ensures prefabZoom == 1.0 && backgroundZoom == 1.0 && frameZoom == 1.0
      ensures !tintBackground && !tintFrame
      ensures fileName == "NewIcon" && folderPath == "Assets/GeneratedSprites"
    {
      prefab := null;
      resolution := 512;
      transparentBackground := true;
      backgroundColor := White;
      objectRotation := Zero;
      cameraZoom := 2.0;
      prefabZoom := 1.0;
      prefabOffset := Vec2(0.0, 0.0);
      backgroundSprite := null;
      backgroundZoom := 1.0;
      backgroundOffset := Vec2(0.0, 0.0);
      tintBackground := false;
      backgroundTintColor := White;
      frameSprite := null;
      frameZoom := 1.0;
      frameOffset := Vec2(0.0, 0.0);
      tintFrame := false;
      frameTintColor := White;
      fileName := DefaultFileName;
      folderPath := DefaultFolderPath;
    }

    /**
      * Clone(): a new object with every field equal to this one's. The prefab
      * and the sprites are the same objects, not copies; because the clone is
      * fresh, assigning its fields later cannot reach this object.
      */
    method Clone() returns (c: PrefabIconSettings)
      ensures fresh(c) && c != this
      ensures c.Snapshot() == Snapshot()
      ensures c.prefab == prefab && c.backgroundSprite == backgroundSprite && c.frameSprite == frameSprite
    {
      c := new PrefabIconSettings.Initialized(Snapshot());
    }

    /** `new PrefabIconSettings { field = value, ... }` with every field given. */
    constructor Initialized(v: SettingsValue)
      ensures Snapshot() == v
    {
      prefab := v.prefab;
      resolution := v.resolution;
      transparentBackground := v.transparentBackground;
      backgroundColor := v.backgroundColor;
      objectRotation := v.objectRotation;
      cameraZoom := v.cameraZoom;
      prefabZoom := v.prefabZoom;
      prefabOffset := v.prefabOffset;
      backgroundSprite := v.backgroundSprite;
      backgroundZoom := v.backgroundZoom;
      backgroundOffset := v.backgroundOffset;
      tintBackground := v.tintBackground;
      backgroundTintColor := v.backgroundTintColor;
      frameSprite := v.frameSprite;
      frameZoom := v.frameZoom;
      frameOffset := v.frameOffset;
      tintFrame := v.tintFrame;
      frameTintColor := v.frameTintColor;
      fileName := v.fileName;
      folderPath := v.folderPath;
    }
  }
}
