/** model/Device.kt: a saved receiver. */
module Model {
  datatype Device = Device(name: string, host: string, port: int)
}
