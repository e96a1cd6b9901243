/**
 * The value types of the Vulkan wrapper: the queue-family record the classifier fills in, the
 * queue capability bits it reads, the adapter properties a selection rule sees, and the rules.
 */
module VulkanTypes {
  import opened CTypes

  /** `VkQueueFlagBits` (Vulkan 1.1, "Devices and Queues", Queue Family Properties). */
  const QueueGraphicsBit: bv32 := 0x1
  const QueueComputeBit: bv32 := 0x2
  const QueueTransferBit: bv32 := 0x4
  const QueueSparseBindingBit: bv32 := 0x8

  /** `Vulkan::QueueFamily`: what the wrapper knows about one queue family of one adapter. */
  datatype QueueFamily = QueueFamily(
    index: int,
    canDoGraphics: bool,
    canDoTransfers: bool,
    canDoComputation: bool,
    canDoSparseBinding: bool,
    canDoPresentation: bool,
    queuesAvailable: uint32)

  /** A default-constructed `QueueFamily`: no index yet, no capability, no queue. */
  function DefaultQueueFamily(): (f: QueueFamily)
    ensures f.index == -1 && f.queuesAvailable == 0
    ensures !f.canDoGraphics && !f.canDoTransfers && !f.canDoComputation
    ensures !f.canDoSparseBinding && !f.canDoPresentation
  {
    QueueFamily(-1, false, false, false, false, false, 0)
  }

  /** The part of `VkPhysicalDeviceProperties` the wrapper prints and a rule may judge. */
  datatype DeviceProperties = DeviceProperties(
    deviceName: string,
    apiVersion: uint32,
    maxImageDimension1D: uint32,
    maxImageDimension2D: uint32,
    maxImageDimension3D: uint32)

  /**
   * `DeviceSelectionRule::Base` and its implementations: `AnythingIsFine`, the default, and any
   * other rule, given by its description and its acceptance predicate.
   */
  datatype SelectionRule =
    | AnythingIsFine
    | Custom(description: string, suitable: DeviceProperties -> bool)

  /** `describe()`. */
  function Describe(rule: SelectionRule): (text: string)
    ensures rule.AnythingIsFine? ==> text == "anything is fine"
    ensures rule.Custom? ==> text == rule.description
  {
    match rule
    case AnythingIsFine => "anything is fine"
    case Custom(description, _) => description
  }

  /** `isSuitable(properties)`: `AnythingIsFine` accepts every adapter. */
  predicate IsSuitable(rule: SelectionRule, properties: DeviceProperties)
    ensures rule.AnythingIsFine? ==> IsSuitable(rule, properties)
    ensures rule.Custom? ==> (IsSuitable(rule, properties) <==> rule.suitable(properties))
  {
    match rule
    case AnythingIsFine => true
    case Custom(_, suitable) => suitable(properties)
  }
}
