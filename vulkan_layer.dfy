/** What the two layers share with every Vulkan layer: result codes, the
    `VkLayerProperties` record, `VK_MAKE_VERSION`, and the two-call
    `vkEnumerateInstanceLayerProperties` protocol each layer implements. */
module VulkanLayer {
  import opened Wrappers

  datatype VkResult = Success | Incomplete | SuboptimalKhr | Failure(code: int)

  datatype LayerProperties = LayerProperties(
    layerName: string, specVersion: nat, implementationVersion: nat, description: string)

  /** `VK_MAKE_VERSION(major, minor, patch)`: major in bits 22 and up, minor in
      bits 12..21, patch in bits 0..11. */
  function MakeVersion(major: nat, minor: nat, patch: nat): (v: nat)
    requires minor < 0x400 && patch < 0x1000
    ensures v / 0x40_0000 == major && (v / 0x1000) % 0x400 == minor && v % 0x1000 == patch
  {
    major * 0x40_0000 + minor * 0x1000 + patch
  }

  /** `IsThisLayer`: a non-null name equal to the layer's own name. */
  function IsThisLayer(layerName: Option<string>, layer: LayerProperties): (b: bool)
    ensures b <==> layerName == Some(layer.layerName)
  {
    layerName.Some? && layerName.value == layer.layerName
  }

  /** `vkEnumerateInstanceLayerProperties` of a layer that reports only
      itself. `propertyCount` is `*pPropertyCount` on entry and `count` on
      exit; `properties` is `pProperties`, which the caller sizes to hold
      `*pPropertyCount` entries. */
  method EnumerateInstanceLayerProperties(layer: LayerProperties, propertyCount: nat,
                                          properties: array?<LayerProperties>)
    returns (result: VkResult, count: nat)
    requires properties != null ==> propertyCount <= properties.Length
    modifies properties
    ensures properties == null ==> result == Success && count == 1
    ensures properties != null && propertyCount == 0 ==>
      result == Incomplete && count == propertyCount && properties[..] == old(properties[..])
    ensures properties != null && propertyCount > 0 ==>
      result == Success && count == 1 && properties[0] == layer && properties[1..] == old(properties[1..])
  {
    if properties == null {
      return Success, 1;
    }
    if propertyCount == 0 {
      return Incomplete, propertyCount;
    }
    count := 1;
    properties[0] := layer;
    result := Success;
  }
}
