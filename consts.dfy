/** Shared constants (utils/const.ts): the fallback image and the table from
    icon names to icon components. */
module Consts {

  import opened Wrappers

  const NO_IMAGE := "https://images.unsplash.com/photo-1516156008625-3a9d6067fab5?w=800&h=600&fit=crop"

  /** The icon components of `iconMap`. */
  datatype Icon = Wrench | Hammer | Home | Heart | Palette | Computer | Shield | BookOpen | Truck | ChefHat

  /** The key under which each icon is stored. */
  function IconName(i: Icon): string {
    match i
    case Wrench => "Wrench"
    case Hammer => "Hammer"
    case Home => "Home"
    case Heart => "Heart"
    case Palette => "Palette"
    case Computer => "Computer"
    case Shield => "Shield"
    case BookOpen => "BookOpen"
    case Truck => "Truck"
    case ChefHat => "ChefHat"
  }

  const IconNames: seq<string> := [
    "Wrench", "Hammer", "Home", "Heart", "Palette", "Computer", "Shield", "BookOpen", "Truck", "ChefHat"]

  /** `iconMap[name]`: the icon, or `undefined` for a name that is not a key. */
  function IconMap(name: string): (r: Option<Icon>)
    ensures r.Some? <==> name in IconNames
    ensures r.Some? ==> IconName(r.value) == name
  {
    if name == "Wrench" then Some(Wrench)
    else if name == "Hammer" then Some(Hammer)
    else if name == "Home" then Some(Home)
    else if name == "Heart" then Some(Heart)
    else if name == "Palette" then Some(Palette)
    else if name == "Computer" then Some(Computer)
    else if name == "Shield" then Some(Shield)
    else if name == "BookOpen" then Some(BookOpen)
    else if name == "Truck" then Some(Truck)
    else if name == "ChefHat" then Some(ChefHat)
    else None
  }

  /** The table's domain is exactly the ten names, each naming its own icon. */
  lemma IconMapDomain(i: Icon)
    ensures |IconNames| == 10
    ensures forall j, k :: 0 <= j < k < |IconNames| ==> IconNames[j] != IconNames[k]
    ensures IconName(i) in IconNames
    ensures IconMap(IconName(i)) == Some(i)
  {
  }

  /** `images[0] || NO_IMAGE`: the first image when there is one and it is
      not empty, the fallback otherwise. */
  function FirstImageOr(images: seq<string>, fallback: string): (r: string)
    ensures images == [] ==> r == fallback
    ensures images != [] && images[0] != "" ==> r == images[0]
    ensures images != [] && images[0] == "" ==> r == fallback
    ensures r == fallback || r == images[0]
  {
    if images != [] && images[0] != "" then images[0] else fallback
  }
}
