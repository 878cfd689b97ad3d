module SimulatorStates {
  datatype SimulatorState =
    | SSK_Building | SSK_Connecting | SSK_Initialising | SSK_Standby | SSK_Executing | SSK_Storing | SSK_Restoring
}
