/** The scene (src/scene.ts): a light and a list of models that grows in place. */
module Scenes {
  import opened Models
  import opened Lighting

  class Scene {
    var models: seq<Model>
    var light: Light

    /** `new Scene(light, models)` */
    constructor(light: Light, models: seq<Model>)
      ensures this.light == light && this.models == models
    {
      this.light := light;
      this.models := models;
    }

    /** `new Scene(light)`: the model list starts empty. */
    constructor WithLight(light: Light)
      ensures this.light == light && models == []
    {
      this.light := light;
      models := [];
    }

    /** `addModel`: appends at the end; the earlier models and the light stay. */
    method AddModel(model: Model)
      modifies this
      ensures models == old(models) + [model]
      ensures light == old(light)
    {
      models := models + [model];
    }

    /** `clearModels`: an empty list; the light stays. */
    method ClearModels()
      modifies this
      ensures models == []
      ensures light == old(light)
    {
      models := [];
    }
  }
}
