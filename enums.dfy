/** The library's enumerations. */
module GameEnums {

  /** Whether `Play` runs Ready/Set/Go once (`if`) or repeatedly (`while`). */
  datatype GamePlayReadyMode = IfReady | WhileReady

  /** In-gameplay actions, actions while paused, actions while stopped. */
  datatype GameActionMode = GamePlay | GamePause | GameStop

  /** Controls, responses to prompts, navigation of menus, anything else. */
  datatype GameActionType = Control | Response | Navigation | Other
}
