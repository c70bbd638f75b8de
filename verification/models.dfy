/** The four classifiers the screen runs side by side. */
module Models {

  /** `ModelEnum`. */
  datatype Model = ResNet50 | VGG16 | NASNetMobile | MobileNet

  /** `ModelEnum.rawValue`: the name shown as the region's title. */
  function Name(m: Model): (r: string)
    ensures |r| > 0
    ensures r == "MobileNet" <==> m == MobileNet
  {
    match m
    case ResNet50 => "ResNet50"
    case VGG16 => "VGG16"
    case NASNetMobile => "NASNetMobile"
    case MobileNet => "MobileNet"
  }

  const AllModels: set<Model> := {ResNet50, VGG16, NASNetMobile, MobileNet}

  /** The titles tell the four regions apart. */
  lemma NamesDistinct(m: Model, n: Model)
    ensures Name(m) == Name(n) <==> m == n
  {
  }

  /** The set lists every model. */
  lemma AllModelsListed()
    ensures forall m: Model :: m in AllModels
  {
    forall m: Model
      ensures m in AllModels
    {
      match m
      case ResNet50 =>
      case VGG16 =>
      case NASNetMobile =>
      case MobileNet =>
    }
  }
}
